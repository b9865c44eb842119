/** Transcripts as Claude records them, with everything the writer here never emits: thinking, results in several
    blocks, plans left plan mode with, plain content, and blocks of no known kind.  Every transcript is one of these
    (internal/session/claude.go:299-412, 597-672). */
module ClaudeNative {
  import opened Basics
  import opened Text
  import opened Conversation
  import opened MediaUrl
  import opened Codex
  import CodexNative
  import opened Claude

  // ----- results -----

  datatype InnerTold = SaidInner(text: string) | ShownInner(source: Source, filename: string, media: MediaRef) | NoInner(item: Inner)

  predicate InnerFair(inner: InnerTold) {
    match inner
    case SaidInner(_) => true
    case ShownInner(source, filename, media) => ReadSource(source, filename) == Some(media)
    case NoInner(item) => item.OtherInner? || (item.InnerMedia? && ReadSource(item.source, item.filename).None?)
  }

  function InnerItem(inner: InnerTold): Inner {
    match inner
    case SaidInner(text) => InnerText(text)
    case ShownInner(source, filename, _) => InnerMedia(source, filename)
    case NoInner(item) => item
  }

  function InnerItems(inners: seq<InnerTold>): seq<Inner> { if inners == [] then [] else [InnerItem(inners[0])] + InnerItems(inners[1..]) }

  /** Each of them answers the call. */
  function InnerPart(id: string, error: bool, inner: InnerTold): seq<Part> {
    match inner
    case SaidInner(text) => [CodexNative.AnswerPart(id, error, text)]
    case ShownInner(_, _, m) => [Part(Media, id, "", "", NO_DATA, error, m.mediaType, m.data, m.url, m.filename)]
    case NoInner(_) => []
  }

  function InnerParts(id: string, error: bool, inners: seq<InnerTold>): seq<Part> {
    if inners == [] then [] else InnerPart(id, error, inners[0]) + InnerParts(id, error, inners[1..])
  }

  predicate AllInner(inners: seq<InnerTold>) { forall i :: 0 <= i < |inners| ==> InnerFair(inners[i]) }

  lemma {:induction false} OneInner(id: string, error: bool, inner: InnerTold, rest: seq<Inner>)
    requires InnerFair(inner)
    ensures ReadInner(id, error, [InnerItem(inner)] + rest) == InnerPart(id, error, inner) + ReadInner(id, error, rest)
  {
    hide ReadSource;
    var items := [InnerItem(inner)] + rest;
    assert items[0] == InnerItem(inner) && items[1..] == rest;
  }

  lemma {:induction false} InnersRead(id: string, error: bool, inners: seq<InnerTold>)
    requires AllInner(inners)
    ensures ReadInner(id, error, InnerItems(inners)) == InnerParts(id, error, inners)
  {
    hide InnerFair, InnerItem, InnerPart;
    if inners != [] {
      InnersRead(id, error, inners[1..]);
      OneInner(id, error, inners[0], InnerItems(inners[1..]));
    }
  }

  lemma {:induction false} ItemIsInner(item: Inner) returns (inner: InnerTold)
    ensures InnerFair(inner) && InnerItem(inner) == item
  {
    inner := NoInner(item);
    match item
    case InnerText(text) => inner := SaidInner(text);
    case InnerMedia(source, filename) =>
      if ReadSource(source, filename).Some? { inner := ShownInner(source, filename, ReadSource(source, filename).value); }
    case OtherInner =>
  }

  lemma {:induction false} ItemsAreInner(items: seq<Inner>) returns (inners: seq<InnerTold>)
    ensures AllInner(inners) && InnerItems(inners) == items
  {
    inners := [];
    if items != [] {
      hide InnerFair, InnerItem;
      var inner := ItemIsInner(items[0]);
      var rest := ItemsAreInner(items[1..]);
      inners := [inner] + rest;
      assert inners[0] == inner && inners[1..] == rest;
    }
  }

  // ----- blocks -----

  datatype Answered = Nothing | Plainly(text: string) | InBlocks(inners: seq<InnerTold>) | Unreadable

  datatype Told =
    | Words(text: string)
    | Proposal(text: string, plan: string)
    | Musing(text: string)
    | Picture(source: Source, filename: string, media: MediaRef)
    | Use(id: string, name: string, input: Json)
    | Outcome(id: string, error: bool, answered: Answered)
    | Silence(block: Claim)

  ghost predicate ToldFair(role: string, told: Told) {
    match told
    case Words(text) => text != "" && (role == "assistant" ==> !CodexNative.IsProposal(text))
    case Proposal(text, plan) => role == "assistant" && exists before, open, close, after :: CodexNative.Proposes(text, before, open, plan, close, after)
    case Musing(text) => text != ""
    case Picture(source, filename, media) => ReadSource(source, filename) == Some(media)
    case Use(_, _, _) => true
    case Outcome(_, _, answered) => answered.InBlocks? ==> AllInner(answered.inners)
    case Silence(block) =>
      (match block
       case TextBlock(text) => text == ""
       case ThinkingBlock(text) => text == ""
       case MediaBlock(source, filename) => ReadSource(source, filename).None?
       case OtherBlock => true
       case _ => false)
  }

  function AnsweredContent(answered: Answered): ResultContent {
    match answered
    case Nothing => NoResult
    case Plainly(text) => TextResult(text)
    case InBlocks(inners) => ListResult(InnerItems(inners))
    case Unreadable => OtherResult
  }

  function ToldBlock(told: Told): Claim {
    match told
    case Words(text) => TextBlock(text)
    case Proposal(text, _) => TextBlock(text)
    case Musing(text) => ThinkingBlock(text)
    case Picture(source, filename, _) => MediaBlock(source, filename)
    case Use(id, name, input) => ToolUse(id, name, input)
    case Outcome(id, error, answered) => ToolResultBlock(id, AnsweredContent(answered), error)
    case Silence(block) => block
  }

  function ToldParts(f: Foreign, told: Told): seq<Part> {
    match told
    case Words(text) => [Part(Text, "", "", text, NO_DATA, false, "", "", "", "")]
    case Musing(text) => [Part(Reasoning, "", "", text, NO_DATA, false, "", "", "", "")]
    case Picture(_, _, m) => [Part(Media, "", "", "", NO_DATA, false, m.mediaType, m.data, m.url, m.filename)]
    case Use(id, name, input) =>
      [Part(ToolCall, id, name, "", if input == JNull then RawJson("{}", Some(JObject(map[]))) else RawJson(f.encode(input), Some(input)),
            false, "", "", "", "")]
    case Outcome(id, error, answered) =>
      (match answered
       case Nothing => [CodexNative.AnswerPart(id, error, "")]
       case Plainly(text) => [CodexNative.AnswerPart(id, error, text)]
       case InBlocks(inners) => InnerParts(id, error, inners)
       case Unreadable => [])
    case _ => []
  }

  /** The call hands over a plan. */
  predicate HandsOver(name: string, input: Json, plan: string) {
    && (name == "ExitPlanMode" || name == "ExitPlanModeV2" || name == "exit-plan-mode-v2")
    && input.JObject? && "plan" in input.fields && input.fields["plan"] == JString(plan) && !Blank(plan)
  }

  /** A proposal is a plan, trimmed, and so is what a call leaves plan mode with, as it stands. */
  ghost predicate Plans(told: Told, plans: seq<string>) {
    match told
    case Proposal(_, plan) => plans == [Trim(plan)]
    case Use(_, name, input) =>
      (forall plan :: HandsOver(name, input, plan) ==> plans == [plan]) && ((forall plan :: !HandsOver(name, input, plan)) ==> plans == [])
    case _ => plans == []
  }

  lemma {:induction false} UsePlans(id: string, name: string, input: Json)
    ensures Plans(Use(id, name, input), ExitPlan(name, input))
  {
    hide Blank;
    if input.JObject? && "plan" in input.fields && input.fields["plan"].JString? {
      var plan := input.fields["plan"].s;
      assert HandsOver(name, input, plan) <==> ExitPlan(name, input) == [plan];
    }
  }

  lemma {:induction false} ToldReads(f: Foreign, role: string, told: Told)
    requires ToldFair(role, told)
    ensures var (parts, plans) := ReadBlock(f, role, ToldBlock(told)); parts == ToldParts(f, told) && Plans(told, plans)
  {
    match told
    case Words(text) =>
      if role == "assistant" { CodexNative.NotProposed(text); }
      hide CodexNative.IsProposal, ProposedPlan;
    case Proposal(text, plan) =>
      var before, open, close, after :| CodexNative.Proposes(text, before, open, plan, close, after);
      CodexNative.ProposalReads(text, before, open, plan, close, after);
      assert |text| >= |open| > 0;
      hide ProposedPlan, CodexNative.Proposes, Trim;
    case Use(id, name, input) =>
      UsePlans(id, name, input);
      hide ExitPlan, Plans;
    case Outcome(id, error, answered) =>
      if answered.InBlocks? { InnersRead(id, error, answered.inners); }
      hide ReadInner, InnerItems, InnerParts;
    case _ => hide ReadSource;
  }

  lemma {:induction false} BlockIsTold(role: string, block: Claim) returns (told: Told)
    ensures ToldFair(role, told) && ToldBlock(told) == block
  {
    told := Silence(block);
    match block
    case TextBlock(text) =>
      if text != "" {
        told := Words(text);
        if role == "assistant" && CodexNative.IsProposal(text) {
          var before, open, plan, close, after :| CodexNative.Proposes(text, before, open, plan, close, after);
          told := Proposal(text, plan);
        }
      }
    case ThinkingBlock(text) => if text != "" { told := Musing(text); }
    case MediaBlock(source, filename) =>
      if ReadSource(source, filename).Some? { told := Picture(source, filename, ReadSource(source, filename).value); }
    case ToolUse(id, name, input) => told := Use(id, name, input);
    case ToolResultBlock(id, content, error) =>
      var inners: seq<InnerTold> := [];
      if content.ListResult? { inners := ItemsAreInner(content.items); }
      hide AllInner, InnerItems;
      told := Outcome(id, error,
                      match content
                      case NoResult => Nothing
                      case TextResult(text) => Plainly(text)
                      case ListResult(_) => InBlocks(inners)
                      case OtherResult => Unreadable);
    case OtherBlock =>
  }

  // ----- records -----

  function ToldBlocks(all: seq<Told>): seq<Claim> { if all == [] then [] else [ToldBlock(all[0])] + ToldBlocks(all[1..]) }

  function AllParts(f: Foreign, all: seq<Told>): seq<Part> { if all == [] then [] else ToldParts(f, all[0]) + AllParts(f, all[1..]) }

  /** The plans are those of the blocks, in their order. */
  ghost predicate AllPlans(all: seq<Told>, plans: seq<string>)
    decreases |all|
  {
    if all == [] then plans == []
    else exists n :: 0 <= n <= |plans| && Plans(all[0], plans[..n]) && AllPlans(all[1..], plans[n..])
  }

  ghost predicate AllToldFair(role: string, all: seq<Told>) { forall i :: 0 <= i < |all| ==> ToldFair(role, all[i]) }

  lemma {:induction false} BlocksRead(f: Foreign, role: string, all: seq<Told>)
    requires AllToldFair(role, all)
    ensures var (parts, plans) := ReadBlocks(f, role, ToldBlocks(all)); parts == AllParts(f, all) && AllPlans(all, plans)
  {
    hide ToldFair, ToldBlock, ToldParts, Plans, ReadBlock;
    if all != [] {
      ToldReads(f, role, all[0]);
      BlocksRead(f, role, all[1..]);
      var here, more := ReadBlock(f, role, ToldBlock(all[0])).1, ReadBlocks(f, role, ToldBlocks(all[1..])).1;
      assert (here + more)[..|here|] == here && (here + more)[|here|..] == more;
      assert ToldBlocks(all)[0] == ToldBlock(all[0]) && ToldBlocks(all)[1..] == ToldBlocks(all[1..]);
      assert ReadBlocks(f, role, ToldBlocks(all)).1 == here + more;
    }
  }

  lemma {:induction false} BlocksAreTold(role: string, blocks: seq<Claim>) returns (all: seq<Told>)
    ensures AllToldFair(role, all) && ToldBlocks(all) == blocks
  {
    all := [];
    if blocks != [] {
      hide ToldFair, ToldBlock;
      var told := BlockIsTold(role, blocks[0]);
      var rest := BlocksAreTold(role, blocks[1..]);
      all := [told] + rest;
      assert all[0] == told && all[1..] == rest;
    }
  }

  datatype Native =
    | Speech(role: string, timestamp: int, all: seq<Told>)
    | Remark(role: string, timestamp: int, text: string)
    | Noise(line: Line)

  ghost predicate NativeFair(n: Native) {
    match n
    case Speech(role, _, all) => (role == "user" || role == "assistant") && AllToldFair(role, all)
    case Remark(role, _, text) => (role == "user" || role == "assistant") && text != ""
    case Noise(line) =>
      line.OtherLine? || (line.role != "user" && line.role != "assistant") || line.content.OtherContent? || line.content == PlainText("")
  }

  function NativeLine(n: Native): Line {
    match n
    case Speech(role, ts, all) => Line(role, ts, Blocks(ToldBlocks(all)))
    case Remark(role, ts, text) => Line(role, ts, PlainText(text))
    case Noise(line) => line
  }

  function NativeLines(ns: seq<Native>): seq<Line> { if ns == [] then [] else [NativeLine(ns[0])] + NativeLines(ns[1..]) }

  /** Everything in it answers some call. */
  predicate Answers(parts: seq<Part>) {
    forall i :: 0 <= i < |parts| ==> parts[i].kind.ToolResult? || (parts[i].kind.Media? && parts[i].callId != "")
  }

  /** A message, which is the tool's if all of it answers calls, and behind it the plans. */
  ghost predicate Says(f: Foreign, n: Native, events: seq<Event>) {
    match n
    case Speech(role, ts, all) =>
      var parts := AllParts(f, all);
      var message := if parts == [] then [] else [Event(Message, if Answers(parts) then "tool" else role, ts, parts, "")];
      exists plans :: AllPlans(all, plans) && events == message + CodexNative.PlansAt(ts, plans)
    case Remark(role, ts, text) =>
      events == [Event(Message, role, ts, [Part(Text, "", "", text, NO_DATA, false, "", "", "", "")], "")]
    case Noise(_) => events == []
  }

  /** The records one after another. */
  ghost predicate AllSay(f: Foreign, ns: seq<Native>, events: seq<Event>)
    decreases |ns|
  {
    if ns == [] then events == []
    else exists n :: 0 <= n <= |events| && Says(f, ns[0], events[..n]) && AllSay(f, ns[1..], events[n..])
  }

  ghost predicate AllNative(ns: seq<Native>) { forall i :: 0 <= i < |ns| ==> NativeFair(ns[i]) }

  lemma {:induction false} AnswersAreResults(parts: seq<Part>)
    requires parts != []
    ensures Answers(parts) <==> OnlyResults(parts)
  {
    if OnlyResults(parts) {
      forall i | 0 <= i < |parts| ensures parts[i].kind.ToolResult? || (parts[i].kind.Media? && parts[i].callId != "") {
        assert parts[i] in parts;
      }
    }
  }

  lemma {:induction false} SpeechSays(f: Foreign, role: string, ts: int, all: seq<Told>)
    requires (role == "user" || role == "assistant") && AllToldFair(role, all)
    ensures Says(f, Speech(role, ts, all), ReadLine(f, NativeLine(Speech(role, ts, all))))
  {
    BlocksRead(f, role, all);
    var (parts, plans) := ReadBlocks(f, role, ToldBlocks(all));
    if parts != [] { AnswersAreResults(parts); }
    CodexNative.PlansAre(ts, plans);
    hide ReadBlocks, AllParts, AllPlans, ToldBlocks, Answers, OnlyResults, CodexNative.PlansAt, PlanEvents, AllToldFair;
    assert AllPlans(all, plans);
  }

  lemma {:induction false} RemarkSays(f: Foreign, role: string, ts: int, text: string)
    requires (role == "user" || role == "assistant") && text != ""
    ensures Says(f, Remark(role, ts, text), ReadLine(f, NativeLine(Remark(role, ts, text))))
  {
    var parts := [TextPart(text)];
    assert !OnlyResults(parts) by { assert TextPart(text) in parts; }
    assert PlanEvents(ts, []) == [];
    hide OnlyResults, PlanEvents;
  }

  lemma {:induction false} NativeSays(f: Foreign, n: Native)
    requires NativeFair(n)
    ensures Says(f, n, ReadLine(f, NativeLine(n)))
  {
    match n
    case Speech(role, ts, all) =>
      hide AllToldFair;
      SpeechSays(f, role, ts, all);
    case Remark(role, ts, text) => RemarkSays(f, role, ts, text);
    case Noise(_) => hide ReadBlocks;
  }

  /** Whatever a transcript says in these ways is read so, record by record. */
  lemma {:induction false} TranscriptReads(f: Foreign, ns: seq<Native>)
    requires AllNative(ns)
    ensures AllSay(f, ns, ReadClaude(f, NativeLines(ns)))
  {
    hide NativeFair, NativeLine, Says, ReadLine;
    if ns != [] {
      NativeSays(f, ns[0]);
      TranscriptReads(f, ns[1..]);
      var first, rest := ReadLine(f, NativeLine(ns[0])), ReadClaude(f, NativeLines(ns[1..]));
      assert NativeLines(ns)[0] == NativeLine(ns[0]) && NativeLines(ns)[1..] == NativeLines(ns[1..]);
      assert (first + rest)[..|first|] == first && (first + rest)[|first|..] == rest;
    }
  }

  lemma {:induction false} LineIsNative(line: Line) returns (n: Native)
    ensures NativeFair(n) && NativeLine(n) == line
  {
    hide AllToldFair, ToldBlocks;
    n := Noise(line);
    if line.Line? && (line.role == "user" || line.role == "assistant") {
      match line.content
      case PlainText(text) => if text != "" { n := Remark(line.role, line.timestamp, text); }
      case Blocks(blocks) =>
        var all := BlocksAreTold(line.role, blocks);
        n := Speech(line.role, line.timestamp, all);
      case OtherContent =>
    }
  }

  /** Every transcript says something in these ways, so every transcript is read so. */
  lemma {:induction false} EveryTranscriptIsNative(f: Foreign, lines: seq<Line>) returns (ns: seq<Native>)
    ensures AllNative(ns) && NativeLines(ns) == lines && AllSay(f, ns, ReadClaude(f, lines))
  {
    ns := [];
    if lines != [] {
      hide NativeFair, NativeLine, ReadClaude, AllSay;
      var n := LineIsNative(lines[0]);
      var rest := EveryTranscriptIsNative(f, lines[1..]);
      ns := [n] + rest;
      assert ns[0] == n && ns[1..] == rest;
    }
    hide NativeLine, NativeFair;
    TranscriptReads(f, ns);
  }
}
