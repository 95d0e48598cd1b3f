/** The tools the MCP server exposes to the agents.

    Every tool is a function of its arguments and of the model's reply,
    an oracle that is `Err` when building the client or invoking the model
    raises. `json.loads` is the parameter `decode`, and the JSON tools hand
    back the document they would serialise with `json.dumps`. The
    PostgreSQL customer table is `Some(rows)` in table order, or `None`
    when connecting or querying raises. */
module McpServer {
  import opened Common
  import opened CustomerModels

  // ------------------------------------------------------ customer lookup

  /** A column value as the database row hands it to Python: its `str()`
      and whether it is truthy. */
  datatype Cell = Cell(text: string, truthy: bool)

  /** The columns the lookup selects, in the order it prints them. */
  const ProfileColumns: seq<string> :=
    ["name", "company", "industry", "description", "preferences", "customer_360_data"]

  /** The selected columns of a customer row; `show` is Python's `str()` of
      a JSON column's value. */
  function RowCells(c: Customer, show: Json -> string): (r: seq<Cell>)
    ensures |r| == |ProfileColumns|
    ensures forall k :: 0 <= k < 4 ==> r[k].truthy == (r[k].text != "")
  {
    [Cell(c.name, c.name != ""), Cell(c.company, c.company != ""), Cell(c.industry, c.industry != ""),
     Cell(c.description, c.description != ""), Cell(show(c.preferences), Truthy(c.preferences)),
     Cell(show(JObj(c.customer360)), Truthy(JObj(c.customer360)))]
  }

  /** One profile line, `f"{col}: {val}"`. */
  function ProfileLine(col: string, c: Cell): (r: string)
    ensures |r| >= 2
  {
    col + ": " + c.text
  }

  /** The indices of the truthy cells among the first `k`, in increasing
      order. */
  function TruthyCells(cells: seq<Cell>, k: nat): (r: seq<nat>)
    requires k <= |cells|
    ensures forall i :: 0 <= i < |r| ==> r[i] < k && cells[r[i]].truthy
    ensures forall j :: 0 <= j < k && cells[j].truthy ==> j in r
    ensures forall a, b :: 0 <= a < b < |r| ==> r[a] < r[b]
  {
    if k == 0 then []
    else
      var rest := TruthyCells(cells, k - 1);
      if cells[k - 1].truthy then rest + [k - 1] else rest
  }

  /** The lines the lookup collects from the first `k` columns. */
  function ProfileLines(cols: seq<string>, cells: seq<Cell>, k: nat): seq<string>
    requires |cols| == |cells| && k <= |cells|
  {
    if k == 0 then []
    else ProfileLines(cols, cells, k - 1)
         + (if cells[k - 1].truthy then [ProfileLine(cols[k - 1], cells[k - 1])] else [])
  }

  /** The collected lines are "col: val" for exactly the truthy columns, in
      column order. */
  lemma {:induction false} ProfileLinesTruthy(cols: seq<string>, cells: seq<Cell>, k: nat)
    requires |cols| == |cells| && k <= |cells|
    ensures var idx := TruthyCells(cells, k);
      |ProfileLines(cols, cells, k)| == |idx|
      && forall i :: 0 <= i < |idx| ==> ProfileLines(cols, cells, k)[i] == ProfileLine(cols[idx[i]], cells[idx[i]])
  {
    if k > 0 {
      ProfileLinesTruthy(cols, cells, k - 1);
      var prev, idx := ProfileLines(cols, cells, k - 1), TruthyCells(cells, k - 1);
      if cells[k - 1].truthy {
        assert ProfileLines(cols, cells, k) == prev + [ProfileLine(cols[k - 1], cells[k - 1])];
        assert TruthyCells(cells, k) == idx + [k - 1];
      } else {
        assert ProfileLines(cols, cells, k) == prev;
      }
    }
  }

  /** A non-empty list whose first part is non-empty joins to a non-empty
      text. */
  lemma JoinNonEmpty(parts: seq<string>, sep: string)
    requires parts != [] && parts[0] != ""
    ensures Join(parts, sep) != ""
  {
    if |parts| > 1 {
      assert Join(parts, sep) == parts[0] + sep + Join(parts[1..], sep);
      assert Join(parts, sep)[0] == parts[0][0];
    }
  }

  /** The profile is empty exactly when no selected column is truthy. */
  lemma ProfileEmpty(cols: seq<string>, cells: seq<Cell>)
    requires |cols| == |cells|
    ensures Join(ProfileLines(cols, cells, |cells|), "\n") == ""
            <==> forall k :: 0 <= k < |cells| ==> !cells[k].truthy
  {
    var lines := ProfileLines(cols, cells, |cells|);
    ProfileLinesTruthy(cols, cells, |cells|);
    var idx := TruthyCells(cells, |cells|);
    if lines != [] {
      assert |lines[0]| >= 2;
      JoinNonEmpty(lines, "\n");
      assert cells[idx[0]].truthy;
    }
  }

  /** The profile text of a row: the loop over the selected columns,
      joined with newlines. */
  method Profile(cells: seq<Cell>) returns (r: string)
    requires |cells| == |ProfileColumns|
    ensures r == Join(ProfileLines(ProfileColumns, cells, |cells|), "\n")
  {
    var parts: seq<string> := [];
    for k := 0 to |cells|
      invariant parts == ProfileLines(ProfileColumns, cells, k)
    {
      if cells[k].truthy {
        parts := parts + [ProfileColumns[k] + ": " + cells[k].text];
      }
    }
    r := Join(parts, "\n");
  }

  /** The first row, from `from` on, whose name equals `name` ignoring case. */
  function FindNameFrom(rows: seq<Customer>, name: string, from: nat): (r: Option<nat>)
    ensures r.Some? ==> from <= r.value < |rows| && Lower(rows[r.value].name) == Lower(name)
                        && forall j :: from <= j < r.value ==> Lower(rows[j].name) != Lower(name)
    ensures r.None? ==> forall j :: from <= j < |rows| ==> Lower(rows[j].name) != Lower(name)
    decreases |rows| - from
  {
    if from >= |rows| then None
    else if Lower(rows[from].name) == Lower(name) then Some(from)
    else FindNameFrom(rows, name, from + 1)
  }

  /** `WHERE LOWER(name) = LOWER(%s) LIMIT 1`: a matching row; with no
      `ORDER BY` the database may return any of them, and the model takes
      the first in the table. */
  function FindName(rows: seq<Customer>, name: string): (r: Option<nat>)
    ensures r.Some? ==> r.value < |rows| && Lower(rows[r.value].name) == Lower(name)
                        && forall j :: 0 <= j < r.value ==> Lower(rows[j].name) != Lower(name)
    ensures r.None? <==> forall j :: 0 <= j < |rows| ==> Lower(rows[j].name) != Lower(name)
  {
    FindNameFrom(rows, name, 0)
  }

  /** What the database lookup finds: no text when the database is
      unreachable or no row matches, the matching row's profile otherwise. */
  function DbProfile(table: Option<seq<Customer>>, name: string, show: Json -> string): Option<string> {
    if table.None? then None
    else match FindName(table.value, name)
      case None => None
      case Some(i) => Some(Join(ProfileLines(ProfileColumns, RowCells(table.value[i], show), 6), "\n"))
  }

  /** `_lookup_customer_in_db(name)`. */
  method LookupCustomerInDb(table: Option<seq<Customer>>, name: string, show: Json -> string)
    returns (r: Option<string>)
    ensures r == DbProfile(table, name, show)
    ensures r.None? <==> table.None? || FindName(table.value, name).None?
  {
    if table.None? {
      return None;
    }
    var found := FindName(table.value, name);
    if found.None? {
      return None;
    }
    var text := Profile(RowCells(table.value[found.value], show));
    r := Some(text);
  }

  /** `CUSTOMER_DB`, the built-in directory keyed by exact company name. */
  const Directory: map<string, string> := map[
    "Acme Corp" := "Leading manufacturer of road runner catching devices. Known for innovation and quality.",
    "Beta LLC" := "Specializes in eco-friendly home products, strong community presence.",
    "Gamma Tech" := "Emerging startup in AI-driven logistics software. Focuses on automation and scalability for e-commerce.",
    "Delta Foods" := "Family-owned organic food producer emphasizing sustainable farming and direct-to-consumer sales.",
    "Epsilon Media" := "Digital marketing agency with expertise in social media campaigns and content creation for B2B clients.",
    "Zeta Renewables" := "Provider of solar energy solutions for residential and commercial buildings. Committed to green energy transition."
  ]

  function NotFound(name: string): string {
    "No customer data found for '" + name + "'."
  }

  /** The answer of `research_customer` once the database has answered
      `found`: a non-empty profile, else a directory entry under exactly
      `name`, else the not-found text. */
  function ResearchAnswer(found: Option<string>, name: string): (r: string)
    ensures r != ""
    ensures found.Some? && found.value != "" ==> r == found.value
    ensures (found.None? || found.value == "") && name in Directory && Directory[name] != "" ==> r == Directory[name]
    ensures (found.None? || found.value == "") && !(name in Directory && Directory[name] != "") ==> r == NotFound(name)
  {
    if found.Some? && found.value != "" then found.value
    else if name in Directory && Directory[name] != "" then Directory[name]
    else NotFound(name)
  }

  /** `research_customer(name)`: the database first, the directory second. */
  method ResearchCustomer(table: Option<seq<Customer>>, name: string, show: Json -> string) returns (r: string)
    ensures r == ResearchAnswer(DbProfile(table, name, show), name)
  {
    var found := LookupCustomerInDb(table, name, show);
    if found.Some? && found.value != "" {
      return found.value;
    }
    if name in Directory && Directory[name] != "" {
      return Directory[name];
    }
    r := NotFound(name);
  }

  /** A row found under the name with at least one truthy column wins over
      the directory; a found row whose columns are all empty does not. */
  lemma DatabaseFirst(table: seq<Customer>, name: string, show: Json -> string)
    requires FindName(table, name).Some?
    ensures var cells := RowCells(table[FindName(table, name).value], show);
      var profile := Join(ProfileLines(ProfileColumns, cells, 6), "\n");
      ResearchAnswer(DbProfile(Some(table), name, show), name)
        == if exists k :: 0 <= k < 6 && cells[k].truthy then profile
           else ResearchAnswer(None, name)
  {
    var cells := RowCells(table[FindName(table, name).value], show);
    ProfileEmpty(ProfileColumns, cells);
  }

  /** The directory is consulted by exact name, unlike the database. */
  lemma DirectoryExact()
    ensures ResearchAnswer(None, "Acme Corp") == Directory["Acme Corp"]
    ensures ResearchAnswer(None, "acme corp") == NotFound("acme corp")
  {
    assert "acme corp" != "Acme Corp";
    assert "acme corp" !in Directory;
  }

  // ------------------------------------------------------ the prompt tool

  /** `initial_pitch_prompt(customer_name, customer_info, tone)`; an absent
      tone is the default 'professional'. */
  function InitialPitchPrompt(customerName: string, customerInfo: string, tone: Option<string>): (r: string)
    ensures Contains(r, customerName) && Contains(r, customerInfo) && Contains(r, tone.GetOr("professional"))
  {
    var t := tone.GetOr("professional");
    var a := "Create a persuasive, personalized sales pitch for ";
    var b := ". Incorporate this customer info: ";
    var c := ". Use a ";
    var d := " tone throughout the pitch. Keep it concise, engaging, and focused on value. "
             + "Structure as an email with subject line, greeting, body (2-4 paragraphs), and professional sign-off.";
    ContainsEach(a, customerName, b, customerInfo, c, t, d);
    a + customerName + b + customerInfo + c + t + d
  }

  /** Each of three texts glued between four others occurs in the whole. */
  lemma ContainsEach(a: string, x: string, b: string, y: string, c: string, z: string, d: string)
    ensures var s := a + x + b + y + c + z + d;
      Contains(s, x) && Contains(s, y) && Contains(s, z)
  {
    var s := a + x + b + y + c + z + d;
    ContainsMiddle(a, x, b + y + c + z + d);
    assert s == a + x + (b + y + c + z + d);
    ContainsMiddle(a + x + b, y, c + z + d);
    assert s == (a + x + b) + y + (c + z + d);
    ContainsMiddle(a + x + b + y + c, z, d);
  }

  // ------------------------------------------------------ JSON extraction

  /** The first index of `c` in `s`. */
  function IndexOf(s: string, c: char): (r: Option<nat>)
    ensures r.Some? ==> r.value < |s| && s[r.value] == c && c !in s[..r.value]
    ensures r.None? ==> c !in s
  {
    if s == [] then None
    else if s[0] == c then Some(0)
    else match IndexOf(s[1..], c)
      case None => None
      case Some(i) =>
        assert s[..i + 1] == [s[0]] + s[1..][..i];
        Some(i + 1)
  }

  /** The last index of `c` in `s`. */
  function LastIndexOf(s: string, c: char): (r: Option<nat>)
    ensures r.Some? ==> r.value < |s| && s[r.value] == c && c !in s[r.value + 1..]
    ensures r.None? ==> c !in s
  {
    if s == [] then None
    else if s[|s| - 1] == c then Some(|s| - 1)
    else match LastIndexOf(s[..|s| - 1], c)
      case None =>
        assert s == s[..|s| - 1] + [s[|s| - 1]];
        None
      case Some(i) =>
        assert s[i + 1..] == s[..|s| - 1][i + 1..] + [s[|s| - 1]];
        Some(i)
  }

  /** `s[i..j + 1]` runs from the first '{' of `s` to its last '}'. */
  predicate GreedyBraces(s: string, i: nat, j: nat) {
    i < j < |s| && s[i] == '{' && s[j] == '}' && '{' !in s[..i] && '}' !in s[j + 1..]
  }

  /** `re.search(r"\{.*\}", s, re.DOTALL)`: the leftmost match starts at
      the first '{' and, `.*` being greedy and matching newlines, ends at
      the last '}'; there is none when no '}' follows a '{'. */
  function BraceSpan(s: string): (r: Option<string>)
    ensures r.Some? <==> exists i, j :: 0 <= i < j < |s| && s[i] == '{' && s[j] == '}'
    ensures r.Some? ==> exists i: nat, j: nat :: GreedyBraces(s, i, j) && r.value == s[i..j + 1]
  {
    var first, last := IndexOf(s, '{'), LastIndexOf(s, '}');
    if first.Some? && last.Some? && first.value < last.value then
      assert GreedyBraces(s, first.value, last.value);
      Some(s[first.value..last.value + 1])
    else
      BracesOrdered(s, first, last);
      None
  }

  /** Every '{' is at or after the first one and every '}' at or before the
      last one, so a '}' after some '{' puts the last '}' after the first '{'. */
  lemma BracesOrdered(s: string, first: Option<nat>, last: Option<nat>)
    requires first == IndexOf(s, '{') && last == LastIndexOf(s, '}')
    requires !(first.Some? && last.Some? && first.value < last.value)
    ensures !exists i, j :: 0 <= i < j < |s| && s[i] == '{' && s[j] == '}'
  {
  }

  /** `r` is the document decoded from the reply's greedy brace span. */
  ghost predicate FromReply(reply: Result<string>, decode: string -> Option<Json>, r: Json) {
    reply.Ok? && exists i: nat, j: nat :: GreedyBraces(reply.value, i, j) && decode(reply.value[i..j + 1]) == Some(r)
  }

  /** What a JSON tool hands back: the document in the model's reply when
      the reply has a brace span that parses, the tool's fallback when the
      model raises, the reply has no span or the span does not parse. */
  function JsonReply(reply: Result<string>, decode: string -> Option<Json>, fallback: Json): (r: Json)
    ensures reply.Err? ==> r == fallback
    ensures reply.Ok? && BraceSpan(reply.value).None? ==> r == fallback
    ensures r != fallback ==>
      reply.Ok? && exists i: nat, j: nat :: GreedyBraces(reply.value, i, j) && decode(reply.value[i..j + 1]) == Some(r)
    ensures (reply.Ok? && exists i: nat, j: nat :: GreedyBraces(reply.value, i, j) && decode(reply.value[i..j + 1]).Some?)
            ==> r == decode(BraceSpan(reply.value).value).value
  {
    if reply.Err? then fallback
    else match BraceSpan(reply.value)
      case None => fallback
      case Some(span) =>
        GreedyUnique(reply.value);
        match decode(span)
        case None => fallback
        case Some(doc) => doc
  }

  /** There is one greedy span. */
  lemma GreedyUnique(s: string)
    ensures forall i: nat, j: nat, i2: nat, j2: nat :: GreedyBraces(s, i, j) && GreedyBraces(s, i2, j2) ==> i == i2 && j == j2
  {
  }

  // ------------------------------------------------------ the scoring tool

  /** The three dimensions the scoring tool asks for. */
  const ScoreDimensions: seq<string> := ["persuasiveness", "clarity", "relevance"]

  /** The neutral scores: 5 on every dimension. */
  function ScoreFallback(): (r: Json)
    ensures r.JObj? && Keys(r.fields) == ScoreDimensions
    ensures forall k :: 0 <= k < |r.fields| ==> r.fields[k].1 == JNum(5.0)
  {
    JObj([(ScoreDimensions[0], JNum(5.0)), (ScoreDimensions[1], JNum(5.0)), (ScoreDimensions[2], JNum(5.0))])
  }

  /** `score_pitch(pitch)` under the model's reply. */
  function ScorePitch(reply: Result<string>, decode: string -> Option<Json>): (r: Json)
    ensures reply.Err? ==> r.JObj? && Keys(r.fields) == ScoreDimensions
                           && forall k :: 0 <= k < |r.fields| ==> r.fields[k].1 == JNum(5.0)
    ensures r != ScoreFallback() ==> FromReply(reply, decode, r)
  {
    JsonReply(reply, decode, ScoreFallback())
  }

  // ------------------------------------------------------ the text tools

  const RefineFailed: string := "[Refinement failed \U{2013} returning original with feedback]\n\n"

  /** `refine_pitch(pitch, feedback)`: the model's text, or, when the model
      raises, the original pitch with the feedback appended. */
  function RefinePitch(pitch: string, feedback: string, reply: Result<string>): (r: string)
    ensures reply.Ok? ==> r == reply.value
    ensures reply.Err? ==>
      Contains(r, pitch) && Contains(r, feedback) && |r| >= |RefineFailed| && r[..|RefineFailed|] == RefineFailed
  {
    if reply.Ok? then reply.value
    else
      var r := RefineFailed + pitch + "\n\nFeedback: " + feedback;
      ContainsMiddle(RefineFailed, pitch, "\n\nFeedback: " + feedback);
      assert r == RefineFailed + pitch + ("\n\nFeedback: " + feedback);
      ContainsMiddle(RefineFailed + pitch + "\n\nFeedback: ", feedback, "");
      assert r == RefineFailed + pitch + "\n\nFeedback: " + feedback + "";
      r
  }

  /** `competitive_positioning(customer_name, industry)`: the model's text,
      or a fixed analysis naming the customer and the industry. */
  function CompetitivePositioning(customerName: string, industry: string, reply: Result<string>): (r: string)
    ensures reply.Ok? ==> r == reply.value
    ensures reply.Err? ==> Contains(r, customerName) && Contains(r, industry)
  {
    if reply.Ok? then reply.value
    else
      var a := "Competitive Positioning for ";
      var tail := "):\n\n"
        + "- Focus on innovation and technology leadership.\n"
        + "- Emphasize ROI and measurable outcomes.\n"
        + "- Highlight superior customer support and onboarding.\n"
        + "- Position against incumbents by stressing agility and customization.\n\n"
        + "(Auto-generated fallback \U{2013} LLM unavailable)";
      var r := a + customerName + " (" + industry + tail;
      ContainsMiddle(a, customerName, " (" + industry + tail);
      assert r == a + customerName + (" (" + industry + tail);
      ContainsMiddle(a + customerName + " (", industry, tail);
      r
  }

  // ------------------------------------------------------ the JSON tools

  /** The sentiment fallback: neutral score, medium engagement. */
  function SentimentFallback(): (r: Json)
    ensures r.JObj? && Lookup(r.fields, "sentiment_score") == Some(JNum(0.0))
    ensures Lookup(r.fields, "engagement_level") == Some(JStr("medium"))
  {
    JObj([("sentiment_score", JNum(0.0)), ("engagement_level", JStr("medium")),
          ("recommended_approach",
           JStr("Insufficient data for analysis. Consider a neutral, value-driven outreach approach."))])
  }

  /** `analyze_customer_sentiment(customer_name, interaction_history)`. */
  function AnalyzeSentiment(reply: Result<string>, decode: string -> Option<Json>): (r: Json)
    ensures reply.Err? ==> r.JObj? && Lookup(r.fields, "sentiment_score") == Some(JNum(0.0))
                           && Lookup(r.fields, "engagement_level") == Some(JStr("medium"))
    ensures r != SentimentFallback() ==> FromReply(reply, decode, r)
  {
    JsonReply(reply, decode, SentimentFallback())
  }

  function SubjectOption(subject: string, reasoning: string): Json {
    JObj([("subject", JStr(subject)), ("reasoning", JStr(reasoning))])
  }

  /** The three fixed subject lines. */
  function SubjectFallback(): (r: Json)
    ensures r.JObj? && Keys(r.fields) == ["subject_lines"]
    ensures r.fields[0].1.JArr? && |r.fields[0].1.items| == 3
    ensures forall k :: 0 <= k < 3 ==> var o := r.fields[0].1.items[k];
      o.JObj? && Keys(o.fields) == ["subject", "reasoning"]
  {
    JObj([("subject_lines", JArr([
      SubjectOption("Partnership Opportunity \U{2013} Let\U{2019}s Connect", "Generic professional opener."),
      SubjectOption("A Solution Tailored for Your Business", "Value-focused subject line."),
      SubjectOption("Quick Question About Your Growth Plans", "Curiosity-driven opener to boost open rates.")]))])
  }

  /** `generate_subject_line(pitch, style)`. */
  function GenerateSubjectLine(reply: Result<string>, decode: string -> Option<Json>): (r: Json)
    ensures reply.Err? ==> r.JObj? && Keys(r.fields) == ["subject_lines"]
                           && r.fields[0].1.JArr? && |r.fields[0].1.items| == 3
    ensures r != SubjectFallback() ==> FromReply(reply, decode, r)
  {
    JsonReply(reply, decode, SubjectFallback())
  }

  /** `range(n)` has `n` items, none when `n` is negative. */
  function RangeLength(n: int): nat {
    if n > 0 then n else 0
  }

  /** The label of the `i`-th variant, counted from 0. */
  function VariantLabel(i: nat): string {
    "Variant " + NatToString(i + 1)
  }

  /** One unchanged variant. */
  function Variant(i: nat, pitch: string): Json {
    JObj([("variant_label", JStr(VariantLabel(i))), ("pitch", JStr(pitch)),
          ("changes_made", JStr("No changes applied (LLM unavailable)."))])
  }

  /** The variants fallback: the pitch unchanged under each label. */
  function VariantsFallback(pitch: string, numVariants: int): Json {
    JObj([("variants", JArr(seq(RangeLength(numVariants), i requires 0 <= i => Variant(i, pitch))))])
  }

  /** `pitch_ab_variants(pitch, num_variants)`; an absent count is 2. */
  function PitchAbVariants(pitch: string, numVariants: Option<int>, reply: Result<string>,
                           decode: string -> Option<Json>): (r: Json)
    ensures reply.Err? ==>
      r.JObj? && Keys(r.fields) == ["variants"] && r.fields[0].1.JArr?
      && |r.fields[0].1.items| == (if numVariants.None? then 2 else RangeLength(numVariants.value))
      && forall i :: 0 <= i < |r.fields[0].1.items| ==>
           r.fields[0].1.items[i].JObj? && |r.fields[0].1.items[i].fields| == 3
           && r.fields[0].1.items[i].fields[1] == ("pitch", JStr(pitch))
    ensures r != VariantsFallback(pitch, numVariants.GetOr(2)) ==> FromReply(reply, decode, r)
  {
    VariantsFallbackShape(pitch, numVariants.GetOr(2));
    JsonReply(reply, decode, VariantsFallback(pitch, numVariants.GetOr(2)))
  }

  /** `str(n)` tells numbers apart. */
  lemma {:induction false} NatToStringInjective(a: nat, b: nat)
    requires NatToString(a) == NatToString(b)
    ensures a == b
    decreases a
  {
    if a >= 10 && b >= 10 {
      var sa, sb := NatToString(a), NatToString(b);
      assert sa[|sa| - 1] == sb[|sb| - 1];
      assert sa[..|sa| - 1] == NatToString(a / 10);
      assert sb[..|sb| - 1] == NatToString(b / 10);
      NatToStringInjective(a / 10, b / 10);
    }
  }

  /** The fallback has exactly `num_variants` items, labelled "Variant 1"
      to "Variant n" with no label twice, each carrying the pitch as it was. */
  lemma VariantsFallbackShape(pitch: string, numVariants: int)
    ensures var items := VariantsFallback(pitch, numVariants).fields[0].1.items;
      |items| == (if numVariants > 0 then numVariants else 0)
      && (forall i :: 0 <= i < |items| ==>
            items[i].JObj? && |items[i].fields| == 3
            && items[i].fields[0] == ("variant_label", JStr("Variant " + NatToString(i + 1)))
            && items[i].fields[1] == ("pitch", JStr(pitch)))
      && forall i, j :: 0 <= i < j < |items| ==> items[i].fields[0] != items[j].fields[0]
  {
    var items := VariantsFallback(pitch, numVariants).fields[0].1.items;
    forall i, j | 0 <= i < j < |items|
      ensures items[i].fields[0] != items[j].fields[0]
    {
      if VariantLabel(i) == VariantLabel(j) {
        var p := "Variant ";
        assert VariantLabel(i)[|p|..] == NatToString(i + 1);
        assert VariantLabel(j)[|p|..] == NatToString(j + 1);
        NatToStringInjective(i + 1, j + 1);
      }
    }
  }

  /** The five lead-score factors of the fallback, each 10. */
  const LeadFactors: seq<string> := ["company_size", "engagement_level", "budget_signals", "industry_fit", "timing_indicators"]

  /** The lead-score fallback: 50 with every factor at 10. */
  function LeadScoreFallback(): Json {
    JObj([("score", JNum(50.0)),
          ("factors", JObj(seq(|LeadFactors|, i requires 0 <= i < |LeadFactors| => (LeadFactors[i], JNum(10.0))))),
          ("recommended_actions", JArr([JStr("Gather more data on decision-maker contacts."),
                                        JStr("Schedule a discovery call to assess fit."),
                                        JStr("Send a tailored case study for their industry.")]))])
  }

  /** `calculate_lead_score(customer_data)`. */
  function CalculateLeadScore(reply: Result<string>, decode: string -> Option<Json>): (r: Json)
    ensures reply.Err? ==> r.JObj? && Lookup(r.fields, "score") == Some(JNum(50.0))
    ensures r != LeadScoreFallback() ==> FromReply(reply, decode, r)
  {
    JsonReply(reply, decode, LeadScoreFallback())
  }

  /** The sum of the numbers bound in `fields`. */
  function NumberTotal(fields: Fields): real {
    if fields == [] then 0.0
    else (if fields[0].1.JNum? then fields[0].1.n else 0.0) + NumberTotal(fields[1..])
  }

  /** The fallback's score is the sum of its factors. */
  lemma LeadScoreBalanced()
    ensures var f := LeadScoreFallback().fields;
      Lookup(f, "score") == Some(JNum(NumberTotal(f[1].1.fields))) && f[1].0 == "factors"
      && |f[1].1.fields| == 5 && forall k :: 0 <= k < 5 ==> f[1].1.fields[k].1 == JNum(10.0)
  {
    NumberTotalUniform(LeadScoreFallback().fields[1].1.fields, 10.0);
  }

  /** Bindings that all hold the number `x` total `x` times their count. */
  lemma {:induction false} NumberTotalUniform(fields: Fields, x: real)
    requires forall k :: 0 <= k < |fields| ==> fields[k].1 == JNum(x)
    ensures NumberTotal(fields) == x * |fields| as real
  {
    if fields != [] {
      NumberTotalUniform(fields[1..], x);
    }
  }

  /** The subject of every fallback follow-up. */
  function FollowUpSubject(customerName: string): string {
    "Following Up \U{2013} " + customerName + " Partnership"
  }

  /** The body of every fallback follow-up. */
  function FollowUpBody(customerName: string): string {
    "Hi " + customerName + " team,\n\n"
    + "I wanted to follow up on my previous message. "
    + "I'd love to explore how we can work together.\n\nBest regards"
  }

  /** The `i`-th follow-up, counted from 0. */
  function FollowUp(i: nat, customerName: string): Json {
    JObj([("email_number", JNum((i + 1) as real)),
          ("send_after_days", JNum(((i + 1) * 3) as real)),
          ("subject", JStr(FollowUpSubject(customerName))),
          ("body", JStr(FollowUpBody(customerName))),
          ("strategy", JStr("Standard follow-up (LLM unavailable)."))])
  }

  /** The follow-up fallback: `num_emails` standard e-mails. */
  function FollowUpFallback(customerName: string, numEmails: int): Json {
    JObj([("sequence", JArr(seq(RangeLength(numEmails), i requires 0 <= i => FollowUp(i, customerName))))])
  }

  /** `generate_followup_sequence(pitch, customer_name, num_emails)`; an
      absent count is 3. */
  function GenerateFollowupSequence(customerName: string, numEmails: Option<int>, reply: Result<string>,
                                    decode: string -> Option<Json>): (r: Json)
    ensures reply.Err? ==>
      r.JObj? && Keys(r.fields) == ["sequence"] && r.fields[0].1.JArr?
      && |r.fields[0].1.items| == (if numEmails.None? then 3 else RangeLength(numEmails.value))
      && forall i :: 0 <= i < |r.fields[0].1.items| ==>
           r.fields[0].1.items[i].JObj? && |r.fields[0].1.items[i].fields| == 5
           && r.fields[0].1.items[i].fields[0] == ("email_number", JNum((i + 1) as real))
    ensures r != FollowUpFallback(customerName, numEmails.GetOr(3)) ==> FromReply(reply, decode, r)
  {
    FollowUpSchedule(customerName, numEmails.GetOr(3));
    JsonReply(reply, decode, FollowUpFallback(customerName, numEmails.GetOr(3)))
  }

  /** The fallback numbers its e-mails 1 to n and sends the k-th after
      3·k days, so the delays strictly increase. */
  lemma FollowUpSchedule(customerName: string, numEmails: int)
    ensures var items := FollowUpFallback(customerName, numEmails).fields[0].1.items;
      |items| == (if numEmails > 0 then numEmails else 0)
      && (forall i :: 0 <= i < |items| ==>
            items[i].JObj? && |items[i].fields| == 5
            && items[i].fields[0] == ("email_number", JNum((i + 1) as real))
            && items[i].fields[1] == ("send_after_days", JNum(3.0 * (i + 1) as real)))
      && forall i, j :: 0 <= i < j < |items| ==> items[i].fields[1].1.n < items[j].fields[1].1.n
  {
  }
}
