/** The agent service: the single-agent operations the pipeline and the
    tasks call. Every language-model reply and every reply of the MCP server
    is a parameter; so is `json.loads`, as a partial decoder. */
module AgentService {
  import opened Common
  import opened AgentModels
  import opened PitchModels
  import opened CustomerModels

  // ------------------------------------------------ title / content replies

  const TitleMarker: string := "TITLE:"
  const ContentMarker: string := "CONTENT:"

  /** The title/content split `generate_pitch` and `refine_pitch` apply to
      the model's reply, with the title to keep when the reply names none. */
  function ParseTitleContent(reply: string, defaultTitle: string): (r: (string, string))
    ensures !Contains(reply, TitleMarker) ==> r == (defaultTitle, reply)
    ensures r.0 == defaultTitle || (r.0 != [] && IsStripped(r.0))
    ensures !Contains(reply, ContentMarker) ==> r.1 == reply
    ensures Contains(reply, TitleMarker) && Contains(reply, ContentMarker) ==>
      var i := Find(reply, ContentMarker).value;
      r.1 == Strip(reply[i + |ContentMarker|..])
    ensures Contains(reply, TitleMarker) ==>
      var head := if Contains(reply, ContentMarker) then reply[..Find(reply, ContentMarker).value] else reply;
      var t := Strip(Replace(head, TitleMarker, ""));
      r.0 == (if t != [] then t else defaultTitle)
  {
    if !Contains(reply, TitleMarker) then (defaultTitle, reply)
    else
      var parts := SplitOnce(reply, ContentMarker);
      var titlePart := Strip(Replace(parts[0], TitleMarker, ""));
      var title := if titlePart != [] then titlePart else defaultTitle;
      if |parts| > 1 then
        assert Find(reply, ContentMarker).value == |parts[0]|;
        (title, Strip(parts[1]))
      else (title, reply)
  }

  /** A reply in the requested layout gives back its title and its content. */
  lemma ParseFormatted(t: string, c: string, d: string)
    requires t != [] && IsStripped(t) && IsStripped(c)
    requires !Contains(t, TitleMarker) && !Contains(t, ContentMarker)
    ensures ParseTitleContent("TITLE: " + t + "\nCONTENT:\n" + c, d) == (t, c)
  {
    var s := "TITLE: " + t + "\nCONTENT:\n" + c;
    FormattedHasTitle(t, c);
    FormattedContentSplit(t, c);
    FormattedTitle(t);
    ContentLine(c);
    TwoParts(s, d);
  }

  lemma FormattedHasTitle(t: string, c: string)
    ensures Contains("TITLE: " + t + "\nCONTENT:\n" + c, TitleMarker)
  {
    var s := "TITLE: " + t + "\nCONTENT:\n" + c;
    assert s[0..6] == TitleMarker;
    assert OccursAt(s, TitleMarker, 0);
  }

  lemma ContentLine(c: string)
    requires IsStripped(c)
    ensures Strip("\n" + c) == c
  {
    StripPadded("\n", c, "");
    assert "\n" + c + "" == "\n" + c;
  }

  /** With both markers present, the title is the stripped text before the
      content marker, less the title marker, and the content the stripped
      text after it. */
  lemma TwoParts(reply: string, d: string)
    requires Contains(reply, TitleMarker) && |SplitOnce(reply, ContentMarker)| == 2
    ensures var parts := SplitOnce(reply, ContentMarker);
      var title := Strip(Replace(parts[0], TitleMarker, ""));
      ParseTitleContent(reply, d) == (if title != [] then title else d, Strip(parts[1]))
  {
  }

  lemma FormattedContentSplit(t: string, c: string)
    requires !Contains(t, ContentMarker)
    ensures SplitOnce("TITLE: " + t + "\nCONTENT:\n" + c, ContentMarker)
            == ["TITLE: " + t + "\n", "\n" + c]
  {
    var head := "TITLE: " + t + "\n";
    var s := head + "CONTENT:\n" + c;
    assert s == "TITLE: " + t + "\nCONTENT:\n" + c;
    assert s[|head|..|head| + 8] == ContentMarker;
    HeadClean(t, s);
    assert OccursAt(s, ContentMarker, |head|);
    var parts := SplitOnce(s, ContentMarker);
    assert |parts| == 2;
    assert OccursAt(s, ContentMarker, |parts[0]|);
    assert !(|parts[0]| < |head|);
    assert !(|head| < |parts[0]|);
    assert parts[0] == s[..|head|] == head;
    assert parts[1] == s[|head| + 8..] == "\n" + c;
  }

  /** The marker does not start inside the title line. */
  lemma HeadClean(t: string, s: string)
    requires !Contains(t, ContentMarker)
    requires |s| >= |t| + 8 && s[..|t| + 8] == "TITLE: " + t + "\n"
    ensures forall j :: 0 <= j < |t| + 8 ==> !OccursAt(s, ContentMarker, j)
  {
    forall j | 0 <= j < |t| + 8
      ensures !OccursAt(s, ContentMarker, j)
    {
      if j <= 6 {
        NotCovered(s, ContentMarker, j, 6);
      } else if j + 8 <= 7 + |t| {
        assert s[j..j + 8] == t[j - 7..j + 1];
        assert !OccursAt(t, ContentMarker, j - 7);
      } else {
        NotCovered(s, ContentMarker, j, 7 + |t|);
      }
    }
  }

  lemma FormattedTitle(t: string)
    requires t != [] && IsStripped(t) && !Contains(t, TitleMarker)
    ensures Strip(Replace("TITLE: " + t + "\n", TitleMarker, "")) == t
  {
    var head := "TITLE: " + t + "\n";
    var rest := " " + t + "\n";
    assert head == TitleMarker + rest;
    assert head[0..6] == TitleMarker;
    NotContainsWrapped(' ', t, '\n', TitleMarker);
    assert [' '] + t + ['\n'] == rest;
    assert Split(rest, TitleMarker) == [rest];
    assert Find(head, TitleMarker) == Some(0);
    assert head[6..] == rest;
    assert Split(head, TitleMarker) == [""] + [rest];
    assert Join(["", rest], "") == "" + "" + Join([rest], "");
    assert Replace(head, TitleMarker, "") == rest;
    StripPadded(" ", t, "\n");
  }

  /** A reply without the title marker is content only. */
  lemma UnformattedReply(reply: string, d: string)
    requires !Contains(reply, TitleMarker)
    ensures ParseTitleContent(reply, d).0 == d && ParseTitleContent(reply, d).1 == reply
  {
  }

  // ------------------------------------------------------- scorer replies

  const JsonFence: string := "```json"
  const Fence: string := "```"

  /** The text `score_pitch` hands to `json.loads`: the body of a ```json
      fence, else of a bare ``` fence, else the text itself. Both pieces are
      taken from `split`, which gives at least two pieces once the fence is
      present, so the `IndexError` the code guards against cannot occur. */
  function FenceBody(text: string): (r: string)
    ensures !Contains(text, Fence) ==> r == text
    ensures Contains(text, Fence) ==> !Contains(r, Fence)
  {
    if Contains(text, JsonFence) then
      var pieces := Split(text, JsonFence);
      BeforeFirstClean(pieces[1], Fence);
      JsonFenceIsFence(text);
      SplitOnce(pieces[1], Fence)[0]
    else if Contains(text, Fence) then
      var pieces := Split(text, Fence);
      BeforeFirstClean(pieces[1], Fence);
      SplitOnce(pieces[1], Fence)[0]
    else text
  }

  lemma JsonFenceIsFence(text: string)
    ensures Contains(text, JsonFence) ==> Contains(text, Fence)
  {
    if Contains(text, JsonFence) {
      var i := Find(text, JsonFence).value;
      assert text[i..i + 3] == text[i..i + 7][..3];
      assert OccursAt(text, Fence, i);
    }
  }

  predicate NoBacktick(s: string) {
    '`' !in s
  }

  /** A separator whose first character is absent from `a` first occurs
      right after `a`. */
  lemma FirstAt(a: string, p: string, b: string)
    requires p != [] && p[0] !in a
    ensures SplitOnce(a + p + b, p) == [a, b]
  {
    var s := a + p + b;
    assert s[|a|..|a| + |p|] == p;
    assert OccursAt(s, p, |a|);
    forall j | 0 <= j < |a|
      ensures !OccursAt(s, p, j)
    {
      assert a[j] in a;
      if j + |p| <= |s| {
        assert s[j..j + |p|][0] == a[j];
      }
    }
    var r := SplitOnce(s, p);
    assert |r| == 2;
    assert !(|r[0]| < |a|) && !(|a| < |r[0]|);
    assert r[0] == s[..|a|] == a;
    assert r[1] == s[|a| + |p|..] == b;
  }

  lemma NoBacktickNoFence(a: string)
    requires NoBacktick(a)
    ensures !Contains(a, Fence)
  {
    forall j | 0 <= j <= |a| - 3
      ensures !OccursAt(a, Fence, j)
    {
      NotCovered(a, Fence, j, j);
    }
  }

  /** Text that is `body` alone, or `body` and then a fence, loses the fence
      and what follows. */
  lemma BeforeFence(x: string, body: string)
    requires NoBacktick(body)
    requires x == body || (|x| >= |body| + 3 && x[..|body| + 3] == body + Fence)
    ensures SplitOnce(x, Fence)[0] == body
  {
    if x == body {
      NoBacktickNoFence(body);
    } else {
      assert x == body + Fence + x[|body| + 3..];
      FirstAt(body, Fence, x[|body| + 3..]);
    }
  }

  /** A reply fenced as ```json yields exactly the fenced text. */
  lemma FencedJsonReply(pre: string, body: string, post: string)
    requires NoBacktick(pre) && NoBacktick(body) && NoBacktick(post)
    ensures FenceBody(pre + JsonFence + body + Fence + post) == body
  {
    var t := pre + JsonFence + body + Fence + post;
    var rest := body + Fence + post;
    assert t == pre + JsonFence + rest;
    FirstAt(pre, JsonFence, rest);
    assert Contains(t, JsonFence);
    SplitSecond(t, JsonFence);
    SplitHead(rest, JsonFence);
    var x := SplitOnce(rest, JsonFence)[0];
    assert Split(t, JsonFence)[1] == x;
    JsonFenceInRest(body, post);
    BeforeFence(x, body);
  }

  /** In `body` + fence + `post` without other backticks, the first ```json
      (if any) starts where the fence does or after it. */
  lemma JsonFenceInRest(body: string, post: string)
    requires NoBacktick(body) && NoBacktick(post)
    ensures var rest := body + Fence + post; var x := SplitOnce(rest, JsonFence)[0];
            x == body || (|x| >= |body| + 3 && x[..|body| + 3] == body + Fence)
  {
    var rest := body + Fence + post;
    forall j | 0 <= j < |body|
      ensures !OccursAt(rest, JsonFence, j)
    {
      assert rest[j] == body[j] && body[j] in body;
      if j + 7 <= |rest| {
        assert rest[j..j + 7][0] == rest[j];
      }
    }
    forall j | |body| < j < |body| + 3
      ensures !OccursAt(rest, JsonFence, j)
    {
      if j + 7 <= |rest| {
        assert rest[|body| + 3] == post[0] && post[0] in post;
        assert rest[j..j + 7][|body| + 3 - j] == rest[|body| + 3];
      }
    }
    var r := SplitOnce(rest, JsonFence);
    if |r| == 2 {
      var i := |r[0]|;
      assert OccursAt(rest, JsonFence, i);
      assert i == |body| || i >= |body| + 3;
      assert r[0] == rest[..i];
    }
  }

  /** A reply fenced with bare backticks yields exactly the fenced text. */
  lemma FencedPlainReply(pre: string, body: string, post: string)
    requires NoBacktick(pre) && NoBacktick(body)
    requires !Contains(pre + Fence + body + Fence + post, JsonFence)
    ensures FenceBody(pre + Fence + body + Fence + post) == body
  {
    var t := pre + Fence + body + Fence + post;
    var rest := body + Fence + post;
    assert t == pre + Fence + rest;
    FirstAt(pre, Fence, rest);
    assert Contains(t, Fence);
    SplitSecond(t, Fence);
    SplitHead(rest, Fence);
    FirstAt(body, Fence, post);
    assert Split(t, Fence)[1] == body;
    BeforeFence(body, body);
  }

  const Dimensions: seq<string> := ["persuasiveness", "clarity", "relevance"]

  function ScoreEntry(score: real, explanation: string): Json {
    JObj([("score", JNum(score)), ("explanation", JStr(explanation))])
  }

  /** The scores used when the reply does not decode: one half on each of
      the three dimensions. */
  function DefaultScores(): (r: Fields)
    ensures |r| == |Dimensions|
    ensures forall i :: 0 <= i < |r| ==> r[i] == (Dimensions[i], ScoreEntry(0.5, "Unable to parse score"))
  {
    var e := ScoreEntry(0.5, "Unable to parse score");
    [(Dimensions[0], e), (Dimensions[1], e), (Dimensions[2], e)]
  }

  /** How `score_pitch` reads the scorer's reply; `decode` is `json.loads`,
      none when it raises. */
  function ScoreReply(reply: string, decode: string -> Option<Json>): (r: Json)
    ensures decode(FenceBody(Strip(reply))).None? ==> r == JObj(DefaultScores())
    ensures r == JObj(DefaultScores()) || decode(FenceBody(Strip(reply))) == Some(r)
  {
    match decode(FenceBody(Strip(reply)))
    case Some(j) => j
    case None => JObj(DefaultScores())
  }

  /** A reply that is exactly a ```json fence is decoded from its body. */
  lemma ScoreReplyFenced(body: string, decode: string -> Option<Json>)
    requires NoBacktick(body)
    ensures ScoreReply(JsonFence + body + Fence, decode)
            == if decode(body).Some? then decode(body).value else JObj(DefaultScores())
  {
    var t := JsonFence + body + Fence;
    StripFenced(body);
    FenceOnly(body);
    ScoreReplyOfBody(t, body, decode);
  }

  lemma ScoreReplyOfBody(t: string, body: string, decode: string -> Option<Json>)
    requires FenceBody(Strip(t)) == body
    ensures ScoreReply(t, decode) == if decode(body).Some? then decode(body).value else JObj(DefaultScores())
  {
  }

  lemma StripFenced(body: string)
    ensures Strip(JsonFence + body + Fence) == JsonFence + body + Fence
  {
    var t := JsonFence + body + Fence;
    assert t[0] == '`' && t[|t| - 1] == '`';
    StripPadded("", t, "");
    assert "" + t + "" == t;
  }

  lemma FenceOnly(body: string)
    requires NoBacktick(body)
    ensures FenceBody(JsonFence + body + Fence) == body
  {
    var e: string := [];
    assert e + JsonFence + body + Fence + e == JsonFence + body + Fence;
    FencedJsonReply(e, body, e);
  }

  /** `AgentService._get_agent_config`: the active configuration of a type;
      `get` raises when several are active. */
  function ActiveConfig(agents: seq<AgentConfig>, t: AgentType): Result<Option<nat>> {
    var found := OfType(agents, t, true);
    if |found| == 0 then Ok(None)
    else if |found| == 1 then Ok(Some(found[0]))
    else Err("MultipleObjectsReturned")
  }

  /** The lookup finds nothing exactly when no configuration of the type is
      active, the one configuration when exactly one is, and raises when two
      are. */
  lemma ActiveConfigSpec(agents: seq<AgentConfig>, t: AgentType)
    ensures var r := ActiveConfig(agents, t);
      r == Ok(None) <==> forall i :: 0 <= i < |agents| ==> !(agents[i].agentType == t && agents[i].isActive)
    ensures var r := ActiveConfig(agents, t);
      r.Ok? && r.value.Some? ==>
        var i := r.value.value;
        i < |agents| && agents[i].agentType == t && agents[i].isActive
        && forall j :: 0 <= j < |agents| && j != i ==> !(agents[j].agentType == t && agents[j].isActive)
    ensures ActiveConfig(agents, t).Err? ==>
      exists i, j :: 0 <= i < j < |agents| && agents[i].agentType == t && agents[i].isActive
                     && agents[j].agentType == t && agents[j].isActive
  {
    var found := OfType(agents, t, true);
    if |found| == 1 {
      assert forall j :: 0 <= j < |agents| && agents[j].agentType == t && agents[j].isActive ==> j == found[0];
    } else if |found| > 1 {
      assert found[0] < found[1];
    }
  }

  /** `score_pitch`: the pitch must exist, the configuration lookup must not
      raise, and the scorer's reply is read by `ScoreReply`. */
  function ScorePitch(pitches: seq<Pitch>, agents: seq<AgentConfig>, pitch: nat,
                      reply: Result<string>, decode: string -> Option<Json>): (r: Result<Json>)
    ensures pitch >= |pitches| ==> r == Err("Pitch matching query does not exist.")
    ensures r.Ok? <==> pitch < |pitches| && ActiveConfig(agents, Scorer).Ok? && reply.Ok?
    ensures r.Ok? ==> r.value == ScoreReply(reply.value, decode)
  {
    if pitch >= |pitches| then Err("Pitch matching query does not exist.")
    else match ActiveConfig(agents, Scorer)
      case Err(e) => Err(e)
      case Ok(_) =>
        match reply
        case Err(e) => Err(e)
        case Ok(text) => Ok(ScoreReply(text, decode))
  }

  // ------------------------------------------------------------- feedback

  /** `value < threshold` for a score value; Python compares booleans as
      integers and raises on other types. */
  function Below(v: Json, threshold: real): (r: Result<bool>)
    ensures NumericValue(v).Some? <==> r.Ok?
    ensures r.Ok? ==> (r.value <==> NumericValue(v).value < threshold)
  {
    match v
    case JNum(n) => Ok(n < threshold)
    case JBool(b) => Ok((if b then 1.0 else 0.0) < threshold)
    case _ => Err("TypeError")
  }

  /** `str(x)` for the explanation values a scorer writes. */
  function PyStr(v: Json): string {
    match v
    case JStr(s) => s
    case JNull => "None"
    case JBool(b) => if b then "True" else "False"
    case _ => ""
  }

  /** The feedback line one scored dimension contributes, if any. A
      dimension whose entry is not an object, or has no score, is never
      flagged (a missing score reads as 1.0). */
  function EntryFeedback(dim: string, data: Json, threshold: real): (r: Result<Option<string>>)
    ensures !data.JObj? ==> r == Ok(None)
    ensures data.JObj? && Lookup(data.fields, "score").None? && threshold <= 1.0 ==> r == Ok(None)
    ensures r.Ok? && r.value.Some? ==>
      data.JObj? && Below(Get(data.fields, "score", JNum(1.0)), threshold) == Ok(true)
      && r.value.value == "Improve " + dim + ": " + PyStr(Get(data.fields, "explanation", JStr("Score too low")))
    ensures data.JObj? && Below(Get(data.fields, "score", JNum(1.0)), threshold) == Ok(true) ==> r.Ok? && r.value.Some?
  {
    match data
    case JObj(f) =>
      (match Below(Get(f, "score", JNum(1.0)), threshold)
       case Err(e) => Err(e)
       case Ok(low) =>
         if low then Ok(Some("Improve " + dim + ": " + PyStr(Get(f, "explanation", JStr("Score too low")))))
         else Ok(None))
    case _ => Ok(None)
  }

  predicate Flagged(entry: (string, Json), threshold: real) {
    var e := EntryFeedback(entry.0, entry.1, threshold);
    e.Ok? && e.value.Some?
  }

  /** How many dimensions are flagged. */
  function FlaggedCount(scores: Fields, threshold: real): nat {
    if scores == [] then 0
    else (if Flagged(scores[0], threshold) then 1 else 0) + FlaggedCount(scores[1..], threshold)
  }

  /** The feedback lines of every flagged dimension, in score order. */
  function FeedbackParts(scores: Fields, threshold: real): Result<seq<string>> {
    if scores == [] then Ok([])
    else
      match EntryFeedback(scores[0].0, scores[0].1, threshold)
      case Err(e) => Err(e)
      case Ok(m) =>
        match FeedbackParts(scores[1..], threshold)
        case Err(e) => Err(e)
        case Ok(rest) => Ok((if m.Some? then [m.value] else []) + rest)
  }

  /** The feedback the pipeline sends the refiner. */
  function Feedback(scores: Fields, threshold: real): (r: Result<string>)
    ensures FeedbackParts(scores, threshold).Ok? && FeedbackParts(scores, threshold).value == [] ==>
              r == Ok("General improvement needed")
    ensures FeedbackParts(scores, threshold).Ok? && FeedbackParts(scores, threshold).value != [] ==>
              r == Ok(Join(FeedbackParts(scores, threshold).value, "; "))
    ensures FeedbackParts(scores, threshold).Err? <==> r.Err?
  {
    match FeedbackParts(scores, threshold)
    case Err(e) => Err(e)
    case Ok(parts) => Ok(if parts == [] then "General improvement needed" else Join(parts, "; "))
  }

  /** The parts are exactly the lines of the flagged dimensions: one per
      flagged dimension, and nothing else. */
  lemma {:induction false} FeedbackPartsExact(scores: Fields, threshold: real)
    requires FeedbackParts(scores, threshold).Ok?
    ensures var ps := FeedbackParts(scores, threshold).value;
      |ps| == FlaggedCount(scores, threshold)
      && forall m :: m in ps <==>
           exists i :: 0 <= i < |scores| && EntryFeedback(scores[i].0, scores[i].1, threshold) == Ok(Some(m))
  {
    if scores != [] {
      FeedbackPartsExact(scores[1..], threshold);
      assert forall i :: 1 <= i < |scores| ==> scores[i] == scores[1..][i - 1];
      var ps := FeedbackParts(scores, threshold).value;
      var e := EntryFeedback(scores[0].0, scores[0].1, threshold);
      var rest := FeedbackParts(scores[1..], threshold).value;
      assert ps == (if e.value.Some? then [e.value.value] else []) + rest;
      assert Flagged(scores[0], threshold) <==> e.value.Some?;
      forall m | m in ps
        ensures exists i :: 0 <= i < |scores| && EntryFeedback(scores[i].0, scores[i].1, threshold) == Ok(Some(m))
      {
        if m !in rest {
          assert EntryFeedback(scores[0].0, scores[0].1, threshold) == Ok(Some(m));
        } else {
          var i :| 0 <= i < |scores[1..]| && EntryFeedback(scores[1..][i].0, scores[1..][i].1, threshold) == Ok(Some(m));
          assert EntryFeedback(scores[i + 1].0, scores[i + 1].1, threshold) == Ok(Some(m));
        }
      }
      forall m | exists i :: 0 <= i < |scores| && EntryFeedback(scores[i].0, scores[i].1, threshold) == Ok(Some(m))
        ensures m in ps
      {
        var i :| 0 <= i < |scores| && EntryFeedback(scores[i].0, scores[i].1, threshold) == Ok(Some(m));
        if i > 0 {
          assert EntryFeedback(scores[1..][i - 1].0, scores[1..][i - 1].1, threshold) == Ok(Some(m));
        }
      }
    }
  }

  /** The positions of the flagged dimensions, in score order. */
  function FlaggedAt(scores: Fields, threshold: real): seq<nat> {
    Where(scores, (e: (string, Json)) => Flagged(e, threshold))
  }

  /** The `k`-th of `parts` is the line of dimension `at[k]`. */
  predicate LinesAt(scores: Fields, threshold: real, parts: seq<string>, at: seq<nat>) {
    |parts| == |at|
    && forall k :: 0 <= k < |at| ==>
         at[k] < |scores| && EntryFeedback(scores[at[k]].0, scores[at[k]].1, threshold) == Ok(Some(parts[k]))
  }

  /** The parts are the lines of the flagged dimensions in score order: the
      `k`-th part is the line of the `k`-th flagged dimension. */
  lemma {:induction false} FeedbackPartsOrder(scores: Fields, threshold: real)
    requires FeedbackParts(scores, threshold).Ok?
    ensures LinesAt(scores, threshold, FeedbackParts(scores, threshold).value, FlaggedAt(scores, threshold))
  {
    if scores != [] {
      FeedbackPartsOrder(scores[1..], threshold);
      var ps := FeedbackParts(scores, threshold).value;
      var rest := FeedbackParts(scores[1..], threshold).value;
      var idx := FlaggedAt(scores[1..], threshold);
      var all := FlaggedAt(scores, threshold);
      var e := EntryFeedback(scores[0].0, scores[0].1, threshold);
      assert Flagged(scores[0], threshold) <==> e.value.Some?;
      if e.value.Some? {
        assert ps == [e.value.value] + rest;
        assert all == [0] + Shifted(idx);
        assert LinesAt(scores[1..], threshold, rest, idx);
        assert |ps| == |all|;
        forall k | 0 <= k < |all|
          ensures all[k] < |scores| && EntryFeedback(scores[all[k]].0, scores[all[k]].1, threshold) == Ok(Some(ps[k]))
        {
          if k > 0 {
            assert all[k] == idx[k - 1] + 1 && ps[k] == rest[k - 1];
            assert scores[all[k]] == scores[1..][idx[k - 1]];
          }
        }
      } else {
        assert ps == rest;
        assert all == Shifted(idx);
        assert LinesAt(scores[1..], threshold, rest, idx);
        assert |ps| == |all|;
        forall k | 0 <= k < |all|
          ensures all[k] < |scores| && EntryFeedback(scores[all[k]].0, scores[all[k]].1, threshold) == Ok(Some(ps[k]))
        {
          assert all[k] == idx[k] + 1;
          assert scores[all[k]] == scores[1..][idx[k]];
        }
      }
    }
  }

  /** When no dimension is flagged, the refiner gets the general request. */
  lemma {:induction false} NothingFlagged(scores: Fields, threshold: real)
    requires forall i :: 0 <= i < |scores| ==> EntryFeedback(scores[i].0, scores[i].1, threshold) == Ok(None)
    ensures Feedback(scores, threshold) == Ok("General improvement needed")
  {
    NoPartsWhenNothingFlagged(scores, threshold);
  }

  lemma {:induction false} NoPartsWhenNothingFlagged(scores: Fields, threshold: real)
    requires forall i :: 0 <= i < |scores| ==> EntryFeedback(scores[i].0, scores[i].1, threshold) == Ok(None)
    ensures FeedbackParts(scores, threshold).Ok? && FeedbackParts(scores, threshold).value == []
  {
    if scores != [] {
      assert forall i :: 1 <= i < |scores| ==> scores[i] == scores[1..][i - 1];
      NoPartsWhenNothingFlagged(scores[1..], threshold);
      assert EntryFeedback(scores[0].0, scores[0].1, threshold) == Ok(None);
    }
  }

  // ------------------------------------------------ research and generation

  /** The research document built from an MCP reply: the reply itself and
      the fields the pitch generator uses, each with its default. */
  function McpResearch(data: Fields): (r: Fields)
    ensures Lookup(r, "source") == Some(JStr("mcp"))
    ensures Lookup(r, "research") == Some(JObj(data))
  {
    [("source", JStr("mcp")), ("research", JObj(data)),
     ("industry_trends", Get(data, "trends", JArr([]))),
     ("pain_points", Get(data, "pain_points", JArr([]))),
     ("opportunities", Get(data, "opportunities", JArr([]))),
     ("competitive_landscape", Get(data, "competitive_landscape", JObj([]))),
     ("recommendations", Get(data, "recommendations", JArr([])))]
  }

  /** `research_customer`. The customer must exist and the configuration
      lookup must not raise; then the model client is built (`llmReady`).
      The MCP server's reply is used when it is a JSON object (any other
      outcome raises inside `_research_with_mcp` and is caught); otherwise
      the model's reply, and a failing model raises. */
  function ResearchCustomer(customers: seq<Customer>, agents: seq<AgentConfig>, customer: nat,
                            llmReady: bool, mcp: Result<Json>, llm: Result<string>,
                            model: string): (r: Result<Json>)
    ensures customer >= |customers| ==> r.Err?
    ensures !llmReady ==> r.Err?
    ensures r.Ok? ==> r.value.JObj?
    ensures r.Ok? && mcp.Ok? && mcp.value.JObj? ==> r.value == JObj(McpResearch(mcp.value.fields))
    ensures r.Ok? && !(mcp.Ok? && mcp.value.JObj?) ==>
      llm.Ok? && Lookup(r.value.fields, "source") == Some(JStr("llm"))
      && Lookup(r.value.fields, "research") == Some(JStr(llm.value))
    ensures (customer < |customers| && ActiveConfig(agents, Research).Ok? && llmReady
             && ((mcp.Ok? && mcp.value.JObj?) || llm.Ok?)) ==> r.Ok?
  {
    if customer >= |customers| then Err("Customer matching query does not exist.")
    else match ActiveConfig(agents, Research)
      case Err(e) => Err(e)
      case Ok(_) =>
        if !llmReady then Err("LLM initialisation failed")
        else if mcp.Ok? && mcp.value.JObj? then Ok(JObj(McpResearch(mcp.value.fields)))
        else match llm
          case Err(e) => Err(e)
          case Ok(text) =>
            Ok(JObj([("source", JStr("llm")), ("research", JStr(text)), ("model", JStr(model))]))
  }

  /** The result document of `generate_pitch` and `refine_pitch`. */
  function PitchResult(title: string, content: string, metadata: Fields): Json {
    JObj([("title", JStr(title)), ("content", JStr(content)), ("metadata", JObj(metadata))])
  }

  /** `generate_pitch`: the reply is split into title and content, the
      title defaulting to "Pitch for <company>". */
  function GeneratePitch(customers: seq<Customer>, agents: seq<AgentConfig>, customer: nat,
                         context: Json, reply: Result<string>, model: string): (r: Result<Json>)
    ensures r.Ok? <==> customer < |customers| && ActiveConfig(agents, PitchGenerator).Ok?
                        && reply.Ok? && context.JObj?
    ensures r.Ok? ==>
      var parsed := ParseTitleContent(reply.value, "Pitch for " + customers[customer].company);
      r.value == PitchResult(parsed.0, parsed.1,
        [("model", JStr(model)), ("tone", Get(context.fields, "tone", JStr("professional"))),
         ("customer_id", JStr(IdText(customer)))])
  {
    if customer >= |customers| then Err("Customer matching query does not exist.")
    else match ActiveConfig(agents, PitchGenerator)
      case Err(e) => Err(e)
      case Ok(_) =>
        match reply
        case Err(e) => Err(e)
        case Ok(text) =>
          if !context.JObj? then Err("AttributeError")
          else
            var parsed := ParseTitleContent(text, "Pitch for " + customers[customer].company);
            Ok(PitchResult(parsed.0, parsed.1,
              [("model", JStr(model)), ("tone", Get(context.fields, "tone", JStr("professional"))),
               ("customer_id", JStr(IdText(customer)))]))
  }

  /** `refine_pitch`: as generation, with the pitch's own title as the
      default. */
  function RefinePitch(pitches: seq<Pitch>, agents: seq<AgentConfig>, pitch: nat,
                       feedback: string, reply: Result<string>, model: string): (r: Result<Json>)
    ensures r.Ok? <==> pitch < |pitches| && ActiveConfig(agents, Refiner).Ok? && reply.Ok?
    ensures r.Ok? ==>
      var parsed := ParseTitleContent(reply.value, pitches[pitch].title);
      r.value == PitchResult(parsed.0, parsed.1,
        [("model", JStr(model)), ("original_pitch_id", JStr(IdText(pitch))), ("feedback", JStr(feedback))])
  {
    if pitch >= |pitches| then Err("Pitch matching query does not exist.")
    else match ActiveConfig(agents, Refiner)
      case Err(e) => Err(e)
      case Ok(_) =>
        match reply
        case Err(e) => Err(e)
        case Ok(text) =>
          var parsed := ParseTitleContent(text, pitches[pitch].title);
          Ok(PitchResult(parsed.0, parsed.1,
            [("model", JStr(model)), ("original_pitch_id", JStr(IdText(pitch))), ("feedback", JStr(feedback))]))
  }

  /** A refiner reply in the requested layout replaces title and content. */
  lemma RefineFormatted(pitches: seq<Pitch>, agents: seq<AgentConfig>, pitch: nat,
                        feedback: string, t: string, c: string, model: string)
    requires pitch < |pitches| && ActiveConfig(agents, Refiner).Ok?
    requires t != [] && IsStripped(t) && IsStripped(c)
    requires !Contains(t, TitleMarker) && !Contains(t, ContentMarker)
    ensures var r := RefinePitch(pitches, agents, pitch, feedback, Ok("TITLE: " + t + "\nCONTENT:\n" + c), model);
            r.Ok? && r.value.fields[0] == ("title", JStr(t)) && r.value.fields[1] == ("content", JStr(c))
  {
    ParseFormatted(t, c, pitches[pitch].title);
  }

  // --------------------------------------------------------------- routing

  /** A call of one agent operation, with its arguments as found in a
      message payload or an execution request. */
  datatype AgentCall =
    | ResearchCall(customer: Json)
    | GenerateCall(customer: Json, context: Json)
    | ScoreCall(pitch: Json)
    | RefineCall(pitch: Json, feedback: Json)
    | StrategyCall(campaign: Json)
  {
    /** The agent type that serves the call. */
    function Agent(): AgentType {
      match this
      case ResearchCall(_) => Research
      case GenerateCall(_, _) => PitchGenerator
      case ScoreCall(_) => Scorer
      case RefineCall(_, _) => Refiner
      case StrategyCall(_) => Strategy
    }
  }

  /** The operation an agent type serves, with its arguments read from the
      payload; the orchestrator serves none. Reading a payload that is not an
      object raises. */
  function Route(t: AgentType, payload: Json): (r: Result<Option<AgentCall>>)
    ensures t == Orchestrator <==> r == Ok(None)
    ensures t != Orchestrator ==> (r.Ok? <==> payload.JObj?)
    ensures r.Ok? && r.value.Some? ==> r.value.value.Agent() == t
  {
    if t == Orchestrator then Ok(None)
    else match payload
      case JObj(f) =>
        Ok(Some(match t
          case Research => ResearchCall(Get(f, "customer_id", JNull))
          case PitchGenerator => GenerateCall(Get(f, "customer_id", JNull), Get(f, "context", JObj([])))
          case Scorer => ScoreCall(Get(f, "pitch_id", JNull))
          case Refiner => RefineCall(Get(f, "pitch_id", JNull), Get(f, "feedback", JStr("")))
          case Strategy => StrategyCall(Get(f, "campaign_id", JNull))))
      case _ => Err("AttributeError")
  }

  /** Routing passes each argument through from the payload, with the
      documented defaults for context and feedback. */
  lemma RouteArguments(t: AgentType, f: Fields)
    requires t != Orchestrator
    ensures var c := Route(t, JObj(f)).value.value;
      match c
      case ResearchCall(x) => x == Get(f, "customer_id", JNull)
      case GenerateCall(x, ctx) => x == Get(f, "customer_id", JNull)
                                  && (Lookup(f, "context").None? ==> ctx == JObj([]))
      case ScoreCall(x) => x == Get(f, "pitch_id", JNull)
      case RefineCall(x, fb) => x == Get(f, "pitch_id", JNull)
                               && (Lookup(f, "feedback").None? ==> fb == JStr(""))
      case StrategyCall(x) => x == Get(f, "campaign_id", JNull)
  {
  }
}
