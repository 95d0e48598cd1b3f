/** The records of the customers application. */
module CustomerModels {
  import opened Common
  import opened Calendar

  datatype CompanySize = Startup | Smb | MidMarket | Enterprise {
    function Code(): string {
      match this
      case Startup => "startup"
      case Smb => "smb"
      case MidMarket => "mid-market"
      case Enterprise => "enterprise"
    }
  }

  datatype CustomerStatus = Prospect | Lead | Qualified | CustomerStage | Churned {
    function Code(): string {
      match this
      case Prospect => "prospect"
      case Lead => "lead"
      case Qualified => "qualified"
      case CustomerStage => "customer"
      case Churned => "churned"
    }
  }

  /** A customer; `customer360` is the cached enrichment document, the
      empty object until one is built. */
  datatype Customer = Customer(
    id: nat, name: string, company: string, industry: string, companySize: CompanySize,
    email: string, phone: string, website: string, description: string,
    preferences: Json, customer360: Fields, tags: seq<string>, leadScore: int,
    status: CustomerStatus, isActive: bool, createdAt: Instant)

  datatype InteractionType = Email | Call | Meeting | Demo | PitchContact

  datatype Interaction = Interaction(
    id: nat, customer: nat, kind: InteractionType, summary: string, createdAt: Instant)
}
