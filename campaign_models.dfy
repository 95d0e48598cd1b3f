/** The records of the campaigns application: campaigns and the customers
    they target. */
module CampaignModels {
  import opened Common
  import opened Calendar

  datatype CampaignStatus = Draft | Active | Paused | Completed | Archived {
    function Code(): string {
      match this
      case Draft => "draft"
      case Active => "active"
      case Paused => "paused"
      case Completed => "completed"
      case Archived => "archived"
    }
  }

  datatype CampaignType = EmailCampaign | Social | MultiChannel | AbTest {
    function Code(): string {
      match this
      case EmailCampaign => "email"
      case Social => "social"
      case MultiChannel => "multi-channel"
      case AbTest => "abtest"
    }
  }

  datatype TargetStatus = Pending | Pitched | Responded | Converted | Rejected {
    function Code(): string {
      match this
      case Pending => "pending"
      case Pitched => "pitched"
      case Responded => "responded"
      case Converted => "converted"
      case Rejected => "rejected"
    }
  }

  datatype Campaign = Campaign(
    id: nat, name: string, status: CampaignStatus, campaignType: CampaignType,
    startDate: Option<Instant>, endDate: Option<Instant>, metrics: Fields,
    budget: real, isActive: bool)

  /** `Campaign.objects.create(name=...)`: a draft e-mail campaign with no
      dates, no metrics and no budget. */
  function NewCampaign(id: nat, name: string): (c: Campaign)
    ensures c.id == id && c.name == name && c.status == Draft && c.campaignType == EmailCampaign
    ensures c.startDate.None? && c.endDate.None? && c.metrics == [] && c.budget == 0.0 && c.isActive
  {
    Campaign(id, name, Draft, EmailCampaign, None, None, [], 0.0, true)
  }

  datatype CampaignTarget = CampaignTarget(
    id: nat, campaign: nat, customer: nat, status: TargetStatus, pitchedAt: Option<Instant>)

  /** A new target row: pending and never pitched. */
  function NewTarget(id: nat, campaign: nat, customer: nat): (t: CampaignTarget)
    ensures t.id == id && t.campaign == campaign && t.customer == customer
    ensures t.status == Pending && t.pitchedAt.None?
  {
    CampaignTarget(id, campaign, customer, Pending, None)
  }

  /** The columns of the table's unique constraint. */
  function TargetKey(t: CampaignTarget): (nat, nat) {
    (t.campaign, t.customer)
  }

  function TargetCount(targets: seq<CampaignTarget>, campaign: nat): nat {
    Count(targets, (t: CampaignTarget) => t.campaign == campaign)
  }

  function StatusCount(targets: seq<CampaignTarget>, campaign: nat, s: TargetStatus): nat {
    Count(targets, (t: CampaignTarget) => t.campaign == campaign && t.status == s)
  }

  function ConvertedCount(targets: seq<CampaignTarget>, campaign: nat): nat {
    StatusCount(targets, campaign, Converted)
  }

  /** Converted targets are targets of the campaign. */
  lemma ConvertedAtMostTargets(targets: seq<CampaignTarget>, campaign: nat)
    ensures ConvertedCount(targets, campaign) <= TargetCount(targets, campaign)
  {
    CountImplies(targets, (t: CampaignTarget) => t.campaign == campaign && t.status == Converted,
                 (t: CampaignTarget) => t.campaign == campaign);
  }
}
