/** Exactly which conversations survive the trip through Codex records: every way of losing
    something lowers the weight of what comes back, and nothing raises it. */
module CodexLoss {
  import opened Basics
  import opened Text
  import opened Conversation
  import opened MediaUrl
  import opened Codex
  import opened CodexRoundTrip

  function AtomWeight(a: Atom): nat {
    match a
    case TextAtom(_, _) => 2
    case MediaAtom(_, media) => Rank(media)
    case AnswerAtom(_, media, _) => 1 + Rank(media)
    case _ => 1
  }

  function Weight(atoms: seq<Atom>): nat {
    if atoms == [] then 0 else AtomWeight(atoms[0]) + Weight(atoms[1..])
  }

  lemma {:induction false} WeightAppend(a: seq<Atom>, b: seq<Atom>)
    ensures Weight(a + b) == Weight(a) + Weight(b)
  {
    if a == [] {
      assert a + b == b;
    } else {
      assert (a + b)[0] == a[0] && (a + b)[1..] == a[1..] + b;
      WeightAppend(a[1..], b);
    }
  }

  lemma WeightOfOne(a: Atom)
    ensures Weight([a]) == AtomWeight(a)
  {
    assert [a][1..] == [];
  }

  lemma {:induction false} ReadWeightAppend(a: seq<Record>, b: seq<Record>)
    ensures Weight(Atoms(Read(a + b))) == Weight(Atoms(Read(a))) + Weight(Atoms(Read(b)))
  {
    ReadAtomsAppend(a, b);
    WeightAppend(Atoms(Read(a)), Atoms(Read(b)));
  }

  // ----- what each part loses -----

  predicate LooksLikePlan(role: string, text: string) { role == "assistant" && ProposedPlan(text).Some? }

  /** What is left of the media that a record holds. */
  function Left(media: Option<MediaRef>): nat { if media.Some? then Rank(media.value) else 0 }

  function MediaLoss(m: MediaRef): nat { if Left(Carried(m)) < Rank(m) then Rank(m) - Left(Carried(m)) else 0 }

  lemma {:induction false} MediaWeighs(m: MediaRef)
    requires SoundMedia(m)
    ensures Left(Carried(m)) + MediaLoss(m) == Rank(m) && (MediaLoss(m) == 0 <==> Carries(m))
  {
    CarriedExactly(m);
    if Carried(m).Some? && !Carries(m) { CarriedLoses(m); }
    hide Carried, Carries, SoundMedia;
  }

  function PartLoss(role: string, p: Part): nat {
    if (p.kind.Text? || p.kind.Reasoning?) && LooksLikePlan(role, p.text) then 1
    else if p.kind.Media? then MediaLoss(MediaOf(p)) + (if p.callId != "" && role != "tool" then 1 else 0)
    else 0
  }

  function PartsLoss(role: string, parts: seq<Part>): nat {
    if parts == [] then 0 else PartLoss(role, parts[0]) + PartsLoss(role, parts[1..])
  }

  function EventLoss(answered: set<string>, e: Event): nat {
    if e.kind.Plan? then Weight(Heal(answered, PartAtoms(e.role, e.parts))) else PartsLoss(e.role, e.parts)
  }

  function Loss(answered: set<string>, events: seq<Event>): nat {
    if events == [] then 0 else EventLoss(answered, events[0]) + Loss(answered, events[1..])
  }

  lemma {:induction false} NoPartsLoss(role: string, parts: seq<Part>)
    requires forall p :: p in parts ==> Shaped(role, p)
    ensures PartsLoss(role, parts) == 0 <==> forall p :: p in parts ==> FaithfulPart(role, p)
  {
    hide ProposedPlan, MediaLoss, SoundMedia, Carries;
    if parts != [] {
      NoPartsLoss(role, parts[1..]);
      assert Shaped(role, parts[0]);
      if parts[0].kind.Media? { MediaWeighs(MediaOf(parts[0])); }
      assert PartLoss(role, parts[0]) == 0 <==> FaithfulPart(role, parts[0]);
      assert forall p :: p in parts <==> p == parts[0] || p in parts[1..];
    }
  }

  lemma {:induction false} SomethingIsHealed(answered: set<string>, role: string, parts: seq<Part>)
    requires parts != [] && Shaped(role, parts[0])
    ensures Weight(Heal(answered, PartAtoms(role, parts))) > 0
  {
    var one := AtomsOf(role, parts[0]);
    assert (one + PartAtoms(role, parts[1..]))[0] == one[0];
    assert HealAtom(answered, one[0]) != [];
  }

  lemma {:induction false} NoLoss(answered: set<string>, events: seq<Event>)
    requires forall e :: e in events ==> ShapedEvent(e)
    ensures Loss(answered, events) == 0 <==> Faithful(events)
  {
    if events != [] {
      hide FaithfulPart, Shaped, PartsLoss, Heal, PartAtoms;
      NoLoss(answered, events[1..]);
      var e := events[0];
      assert ShapedEvent(e);
      if e.kind.Plan? {
        if e.parts != [] {
          assert Shaped(e.role, e.parts[0]);
          SomethingIsHealed(answered, e.role, e.parts);
        } else {
          NothingHealed(answered, e.role);
        }
      } else {
        NoPartsLoss(e.role, e.parts);
      }
      assert EventLoss(answered, e) == 0 <==> FaithfulEvent(e);
      assert forall d :: d in events <==> d == e || d in events[1..];
    }
  }

  lemma {:induction false} NothingHealed(answered: set<string>, role: string)
    ensures Weight(Heal(answered, PartAtoms(role, []))) == 0
  {}

  // ----- what comes back of message content -----

  predicate WaitingBlock(b: Option<Block>) {
    b.Some? && ((b.value.kind in MESSAGE_TEXT && b.value.text != "" && b.value.media.None?) || b.value.kind in MESSAGE_MEDIA)
  }

  predicate Waiting(content: seq<Option<Block>>) { forall b :: b in content ==> WaitingBlock(b) }

  function BlockWeight(role: string, b: Option<Block>): nat {
    if b.None? then 0
    else if b.value.kind in MESSAGE_MEDIA then Left(b.value.media)
    else if LooksLikePlan(role, b.value.text) then 1 else 2
  }

  function ContentWeight(role: string, content: seq<Option<Block>>): nat {
    if content == [] then 0 else BlockWeight(role, content[0]) + ContentWeight(role, content[1..])
  }

  lemma {:induction false} ContentWeightSnoc(role: string, content: seq<Option<Block>>, b: Option<Block>)
    ensures ContentWeight(role, content + [b]) == ContentWeight(role, content) + BlockWeight(role, b)
  {
    hide LooksLikePlan;
    if content == [] {
      assert content + [b] == [b] && [b][1..] == [];
    } else {
      assert (content + [b])[0] == content[0] && (content + [b])[1..] == content[1..] + [b];
      ContentWeightSnoc(role, content[1..], b);
    }
  }

  lemma {:induction false} ContentWeighs(role: string, content: seq<Option<Block>>)
    requires Waiting(content)
    ensures var (parts, plans) := ReadContent(role, content);
      Weight(PartAtoms(role, parts)) + |plans| == ContentWeight(role, content)
  {
    if content != [] {
      hide ProposedPlan;
      assert WaitingBlock(content[0]);
      ContentWeighs(role, content[1..]);
      var (parts, plans) := ReadContent(role, content[1..]);
      var b := content[0].value;
      TextIsNotMedia(b.kind);
      if b.kind in MESSAGE_MEDIA && b.media.None? {
        assert ReadContent(role, content) == (parts, plans);
      } else if b.kind in MESSAGE_TEXT && LooksLikePlan(role, b.text) {
        assert ReadContent(role, content) == (parts, [ProposedPlan(b.text).value] + plans);
      } else {
        var p := if b.kind in MESSAGE_MEDIA then MediaPart(b.media.value, "", false) else TextPart(b.text);
        assert ReadContent(role, content) == ([p] + parts, plans);
        assert ([p] + parts)[1..] == parts && ([p] + parts)[0] == p;
        WeightAppend(AtomsOf(role, p), PartAtoms(role, parts));
        WeightOfOne(AtomsOf(role, p)[0]);
        assert AtomsOf(role, p) == [AtomsOf(role, p)[0]];
      }
    }
  }

  lemma {:induction false} PlansWeigh(ts: int, plans: seq<string>)
    ensures Weight(Atoms(PlanEvents(ts, plans))) == |plans|
  {
    if plans != [] {
      var e := PlanEvent(ts, plans[0]);
      PlansWeigh(ts, plans[1..]);
      AtomsAppend([e], PlanEvents(ts, plans[1..]));
      OneEvent(e);
      assert [] + [PlanAtom(plans[0])] == [PlanAtom(plans[0])];
      WeightAppend([PlanAtom(plans[0])], Atoms(PlanEvents(ts, plans[1..])));
      WeightOfOne(PlanAtom(plans[0]));
    }
  }

  lemma {:induction false} FlushWeighs(role: string, ts: int, content: seq<Option<Block>>)
    requires role in {"user", "assistant"} && Waiting(content)
    ensures Weight(Atoms(Read(Flush(role, ts, content)))) == ContentWeight(role, content)
  {
    if content != [] {
      hide Waiting, ContentWeight, PartAtoms, Weight, PlanEvents, ReadContent;
      FlushRead(role, ts, content);
      ContentWeighs(role, content);
      var (parts, plans) := ReadContent(role, content);
      PlansWeigh(ts, plans);
      var said := if parts == [] then [] else [MessageEvent(role, ts, parts)];
      AtomsAppend(said, PlanEvents(ts, plans));
      WeightAppend(Atoms(said), Atoms(PlanEvents(ts, plans)));
      if parts == [] {
        NothingSaid(role);
      } else {
        OneEvent(said[0]);
        EmptyTail(PartAtoms(role, parts));
      }
    }
  }

  lemma {:induction false} NothingSaid(role: string)
    ensures Weight(Atoms([])) == 0 && Weight(PartAtoms(role, [])) == 0
  {}

  // ----- what comes back of parts -----

  /** The block in which a part waits. */
  function BlockFor(role: string, p: Part): Option<Block> {
    if p.kind.Media? then UrlBlock(role, p) else Some(Block(TextKind(role), p.text, None))
  }

  lemma {:induction false} MediaBlockWeighs(role: string, answered: set<string>, p: Part)
    requires p.kind.Media? && Shaped(role, p) && role != "tool"
    ensures WaitingBlock(BlockFor(role, p))
    ensures BlockWeight(role, BlockFor(role, p)) + PartLoss(role, p) == Weight(Heal(answered, AtomsOf(role, p)))
  {
    MediaWeighs(MediaOf(p));
    hide Heal, Weight, Carried, SoundMedia, Rank, MediaLoss, LooksLikePlan, IsImage;
    var a := if p.callId == "" then MediaAtom(role, MediaOf(p)) else AnswerAtom(p.callId, MediaOf(p), p.error);
    OneAtom(answered, a);
    WeightOfOne(a);
  }

  lemma {:induction false} TextBlockWeighs(role: string, answered: set<string>, p: Part)
    requires (p.kind.Text? || p.kind.Reasoning?) && Shaped(role, p)
    ensures WaitingBlock(BlockFor(role, p))
    ensures BlockWeight(role, BlockFor(role, p)) + PartLoss(role, p) == Weight(Heal(answered, AtomsOf(role, p)))
  {
    TextIsNotMedia(TextKind(role));
    hide Heal, Weight, LooksLikePlan;
    OneAtom(answered, if p.kind.Text? then TextAtom(role, p.text) else ReasoningAtom(p.text));
    WeightOfOne(TextAtom(role, p.text));
  }

  lemma {:induction false} WaitingWeighs(role: string, ts: int, answered: set<string>, p: Part, content: seq<Option<Block>>)
    requires role in {"user", "assistant"} && Shaped(role, p) && Waiting(content)
    requires p.kind.Text? || p.kind.Reasoning? || p.kind.Media?
    ensures var (emitted, content') := WritePart(false, role, ts, answered, p, content);
      && emitted == [] && Waiting(content')
      && ContentWeight(role, content') + PartLoss(role, p)
         == ContentWeight(role, content) + Weight(Heal(answered, AtomsOf(role, p)))
  {
    assert WritePart(false, role, ts, answered, p, content) == ([], content + [BlockFor(role, p)]);
    if p.kind.Media? { MediaBlockWeighs(role, answered, p); } else { TextBlockWeighs(role, answered, p); }
    ContentWeightSnoc(role, content, BlockFor(role, p));
    hide WritePart, ContentWeight, Heal, Weight, PartLoss, AtomsOf, BlockFor, BlockWeight, Shaped, WaitingBlock;
  }

  lemma {:induction false} PartWeighs(role: string, ts: int, answered: set<string>, p: Part, content: seq<Option<Block>>)
    requires role in {"user", "assistant", "tool"} && Shaped(role, p) && Waiting(content)
    ensures var (emitted, content') := WritePart(role == "tool", WriterRole(role), ts, answered, p, content);
      && Waiting(content')
      && Weight(Atoms(Read(emitted))) + ContentWeight(WriterRole(role), content') + PartLoss(role, p)
         == ContentWeight(WriterRole(role), content) + Weight(Heal(answered, AtomsOf(role, p)))
  {
    hide Read, Atoms, Heal, ContentWeight, Flush, CallRecords, ProposedPlan, IsImage, Weight, Carried, Carries, SoundMedia;
    var writer := WriterRole(role);
    NothingWaits(writer);
    match p.kind
    case Text => NothingRead(); WaitingWeighs(role, ts, answered, p, content);
    case Reasoning => NothingRead(); WaitingWeighs(role, ts, answered, p, content);
    case Media =>
      if role != "tool" { NothingRead(); WaitingWeighs(role, ts, answered, p, content); }
      else {
        FlushWeighs(writer, ts, content);
        AnswerReads(ts, p);
        AnswerWeighs(p);
        OneAtom(answered, AtomsOf(role, p)[0]);
        var block := UrlBlock("user", p);
        ReadWeightAppend(Flush(writer, ts, content), [OutputRecord(ts, p.callId, OutBlocks([block]), p.error)]);
      }
    case ToolCall =>
      FlushWeighs(writer, ts, content);
      CallReturns(ts, answered, p);
      ReadWeightAppend(Flush(writer, ts, content), CallRecords(ts, answered, p));
    case ToolResult =>
      FlushWeighs(writer, ts, content);
      ResultReturns(ts, p.callId, p.text, p.error);
      OneAtom(answered, AtomsOf(role, p)[0]);
      ReadWeightAppend(Flush(writer, ts, content), [OutputRecord(ts, p.callId, OutText(p.text), p.error)]);
  }

  /** Media that answer a call leave at least a result. */
  lemma {:induction false} AnswerWeighs(p: Part)
    requires p.kind.Media? && p.callId != "" && SoundMedia(MediaOf(p))
    ensures Weight(AtomsOf("tool", AnswerRead(p))) + MediaLoss(MediaOf(p)) == Weight(AtomsOf("tool", p)) == 1 + Rank(MediaOf(p))
  {
    AnswerAtoms(p);
    MediaWeighs(MediaOf(p));
    hide *;
    WeightOfOne(AnswerAtom(p.callId, MediaOf(p), p.error));
    WeightOfOne(LeftOfAnswer(p));
    AnswerWeight(p.callId, MediaOf(p), p.error);
    LeftWeighs(p);
  }

  function LeftOfAnswer(p: Part): Atom {
    var media := Carried(MediaOf(p));
    if media.Some? then AnswerAtom(p.callId, media.value, p.error) else ResultAtom(p.callId, "", p.error)
  }

  lemma {:induction false} AnswerAtoms(p: Part)
    requires p.kind.Media? && p.callId != ""
    ensures AtomsOf("tool", AnswerRead(p)) == [LeftOfAnswer(p)] && AtomsOf("tool", p) == [AnswerAtom(p.callId, MediaOf(p), p.error)]
  {
    hide Carried;
  }

  lemma {:induction false} AnswerWeight(callId: string, media: MediaRef, error: bool)
    ensures AtomWeight(AnswerAtom(callId, media, error)) == 1 + Rank(media)
  {
    hide Rank;
  }

  lemma {:induction false} LeftWeighs(p: Part)
    ensures AtomWeight(LeftOfAnswer(p)) == 1 + Left(Carried(MediaOf(p)))
  {
    hide Carried, Rank;
  }

  lemma {:induction false} NothingWaits(role: string)
    ensures ContentWeight(role, []) == 0
  {}

  lemma NothingRead()
    ensures Weight(Atoms(Read([]))) == 0 && Read([]) == []
  {}

  lemma {:induction false} PartsWeigh(role: string, ts: int, answered: set<string>, parts: seq<Part>, content: seq<Option<Block>>)
    requires role in {"user", "assistant", "tool"}
    requires (forall p :: p in parts ==> Shaped(role, p)) && Waiting(content)
    ensures Weight(Atoms(Read(WriteParts(role == "tool", WriterRole(role), ts, answered, parts, content)))) + PartsLoss(role, parts)
      == ContentWeight(WriterRole(role), content) + Weight(Heal(answered, PartAtoms(role, parts)))
    decreases |parts|
  {
    hide Read, Atoms, Weight, ContentWeight, Shaped, Waiting, WritePart, AtomsOf, HealAtom, Flush, PartLoss;
    var writer := WriterRole(role);
    if parts == [] {
      FlushWeighs(writer, ts, content);
      NothingHealed(answered, role);
    } else {
      PartWeighs(role, ts, answered, parts[0], content);
      var (emitted, content') := WritePart(role == "tool", writer, ts, answered, parts[0], content);
      PartsWeigh(role, ts, answered, parts[1..], content');
      ReadWeightAppend(emitted, WriteParts(role == "tool", writer, ts, answered, parts[1..], content'));
      HealAppend(answered, AtomsOf(role, parts[0]), PartAtoms(role, parts[1..]));
      WeightAppend(Heal(answered, AtomsOf(role, parts[0])), Heal(answered, PartAtoms(role, parts[1..])));
    }
  }

  // ----- whole conversations -----

  lemma {:induction false} EventWeighs(e: Event, now: int, answered: set<string>)
    requires ShapedEvent(e)
    ensures Weight(Atoms(Read(WriteEvent(e, now, answered)))) + EventLoss(answered, e) == Weight(Heal(answered, EventAtoms(e)))
  {
    hide Read, Atoms, Heal, Weight, PartsLoss, PartAtoms, ContentWeight, Shaped, WritePart, Flush, Trim;
    var ts := TimestampOr(e.timestamp, now);
    if e.kind.Plan? {
      PlanReturns(ts, e.planText);
      OneAtom(answered, PlanAtom(e.planText));
      HealAppend(answered, PartAtoms(e.role, e.parts), [PlanAtom(e.planText)]);
      WeightAppend(Heal(answered, PartAtoms(e.role, e.parts)), HealAtom(answered, PlanAtom(e.planText)));
    } else {
      PartsWeigh(e.role, ts, answered, e.parts, []);
      NothingWaits(WriterRole(e.role));
      EmptyTail(PartAtoms(e.role, e.parts));
    }
  }

  lemma {:induction false} EventsWeigh(events: seq<Event>, now: int, answered: set<string>)
    requires forall e :: e in events ==> ShapedEvent(e)
    ensures Weight(Atoms(Read(WriteEvents(events, now, answered)))) + Loss(answered, events)
      == Weight(Heal(answered, Atoms(events)))
  {
    if events == [] {
      NothingRead();
    } else {
      hide ShapedEvent, WriteEvent, EventAtoms, Read, HealAtom, Weight, EventLoss;
      EventWeighs(events[0], now, answered);
      EventsWeigh(events[1..], now, answered);
      ReadWeightAppend(WriteEvent(events[0], now, answered), WriteEvents(events[1..], now, answered));
      HealAppend(answered, EventAtoms(events[0]), Atoms(events[1..]));
      WeightAppend(Heal(answered, EventAtoms(events[0])), Heal(answered, Atoms(events[1..])));
    }
  }

  /** A well-formed conversation comes back as it was said, healed, if and only if it is
      faithful. */
  lemma {:induction false} ComesBackExactly(events: seq<Event>, now: int)
    requires WellFormed(events)
    ensures Atoms(RoundTrip(events, now)) == Heal(Answered(events), Atoms(events)) <==> Faithful(events)
  {
    hide CheckEvents, ShapedEvent, FaithfulEvent, Read, WriteEvents, Atoms, Heal, Weight, Loss, Answered;
    EventsShaped(UNREAD, events);
    if Faithful(events) {
      EventsReturn(events, now, Answered(events));
    } else {
      EventsWeigh(events, now, Answered(events));
      NoLoss(Answered(events), events);
    }
  }

  // ----- when nothing comes back -----

  /** Media outside tool messages that no reader will make anything of. */
  predicate Silent(role: string, p: Part) { role != "tool" && p.kind.Media? && Carried(MediaOf(p)).None? }

  predicate SilentEvent(e: Event) { e.kind.Message? && forall p :: p in e.parts ==> Silent(e.role, p) }

  predicate Speaks(events: seq<Event>) { exists e :: e in events && !SilentEvent(e) }

  lemma {:induction false} PartOutweighsLoss(answered: set<string>, role: string, p: Part)
    requires Shaped(role, p)
    ensures PartLoss(role, p) <= Weight(Heal(answered, AtomsOf(role, p)))
    ensures !Silent(role, p) ==> PartLoss(role, p) < Weight(Heal(answered, AtomsOf(role, p)))
  {
    if p.kind.Media? { MediaWeighs(MediaOf(p)); }
    hide ProposedPlan, Carried, SoundMedia, Carries, MediaLoss;
    var a := AtomsOf(role, p)[0];
    OneAtom(answered, a);
    assert AtomsOf(role, p) == [a];
    var healed := HealAtom(answered, a);
    assert healed == [healed[0]] + healed[1..];
    WeightAppend([healed[0]], healed[1..]);
    WeightOfOne(healed[0]);
  }

  lemma {:induction false} PartsOutweighLoss(answered: set<string>, role: string, parts: seq<Part>)
    requires forall p :: p in parts ==> Shaped(role, p)
    ensures PartsLoss(role, parts) <= Weight(Heal(answered, PartAtoms(role, parts)))
    ensures (exists p :: p in parts && !Silent(role, p)) ==> PartsLoss(role, parts) < Weight(Heal(answered, PartAtoms(role, parts)))
  {
    hide PartLoss, AtomsOf, Weight, Shaped, HealAtom, Silent;
    if parts != [] {
      PartOutweighsLoss(answered, role, parts[0]);
      PartsOutweighLoss(answered, role, parts[1..]);
      HealAppend(answered, AtomsOf(role, parts[0]), PartAtoms(role, parts[1..]));
      WeightAppend(Heal(answered, AtomsOf(role, parts[0])), Heal(answered, PartAtoms(role, parts[1..])));
      assert forall p :: p in parts <==> p == parts[0] || p in parts[1..];
    }
  }

  lemma {:induction false} EventOutweighsLoss(answered: set<string>, e: Event)
    requires ShapedEvent(e)
    ensures EventLoss(answered, e) <= Weight(Heal(answered, EventAtoms(e)))
    ensures !SilentEvent(e) ==> EventLoss(answered, e) < Weight(Heal(answered, EventAtoms(e)))
  {
    hide PartsLoss, Weight, Shaped, PartAtoms, Trim, Heal, Silent;
    if e.kind.Plan? {
      OneAtom(answered, PlanAtom(e.planText));
      HealAppend(answered, PartAtoms(e.role, e.parts), [PlanAtom(e.planText)]);
      WeightAppend(Heal(answered, PartAtoms(e.role, e.parts)), HealAtom(answered, PlanAtom(e.planText)));
      WeightOfOne(PlanAtom(Trim(e.planText)));
    } else {
      PartsOutweighLoss(answered, e.role, e.parts);
      EmptyTail(PartAtoms(e.role, e.parts));
    }
  }

  lemma {:induction false} EventsOutweighLoss(answered: set<string>, events: seq<Event>)
    requires forall e :: e in events ==> ShapedEvent(e)
    ensures Loss(answered, events) <= Weight(Heal(answered, Atoms(events)))
    ensures Speaks(events) ==> Loss(answered, events) < Weight(Heal(answered, Atoms(events)))
  {
    hide EventLoss, Weight, ShapedEvent, EventAtoms, HealAtom, SilentEvent;
    if events != [] {
      EventOutweighsLoss(answered, events[0]);
      EventsOutweighLoss(answered, events[1..]);
      HealAppend(answered, EventAtoms(events[0]), Atoms(events[1..]));
      WeightAppend(Heal(answered, EventAtoms(events[0])), Heal(answered, Atoms(events[1..])));
      assert forall e :: e in events <==> e == events[0] || e in events[1..];
    }
  }

  predicate SilentBlock(b: Option<Block>) { b.Some? && b.value.kind in MESSAGE_MEDIA && b.value.media.None? }

  lemma {:induction false} SilentContent(role: string, content: seq<Option<Block>>)
    requires forall b :: b in content ==> SilentBlock(b)
    ensures ReadContent(role, content) == ([], [])
  {
    hide ProposedPlan;
    if content != [] {
      assert SilentBlock(content[0]);
      SilentContent(role, content[1..]);
      TextIsNotMedia(content[0].value.kind);
    }
  }

  lemma {:induction false} SilentParts(role: string, ts: int, answered: set<string>, parts: seq<Part>, content: seq<Option<Block>>)
    requires (forall p :: p in parts ==> Silent(role, p)) && forall b :: b in content ==> SilentBlock(b)
    ensures Read(WriteParts(false, role, ts, answered, parts, content)) == []
    decreases |parts|
  {
    hide Read, ReadContent, Carried, IsImage, Flush;
    if parts == [] {
      SilentContent(role, content);
      SilentFlush(role, ts, content);
    } else {
      assert Silent(role, parts[0]);
      var block := UrlBlock(role, parts[0]);
      assert SilentBlock(block);
      assert WritePart(false, role, ts, answered, parts[0], content) == ([], content + [block]);
      SilentParts(role, ts, answered, parts[1..], content + [block]);
      EmptyTail(WriteParts(false, role, ts, answered, parts[1..], content + [block]));
    }
  }

  lemma {:induction false} SilentFlush(role: string, ts: int, content: seq<Option<Block>>)
    requires ReadContent(role, content) == ([], [])
    ensures Read(Flush(role, ts, content)) == []
  {
    if content != [] { FlushRead(role, ts, content); }
  }

  lemma {:induction false} SilentEvents(events: seq<Event>, now: int, answered: set<string>)
    requires forall e :: e in events ==> SilentEvent(e) && e.parts != []
    ensures Read(WriteEvents(events, now, answered)) == []
  {
    hide WriteParts, Silent, Read;
    if events == [] {
      NothingRead();
    } else {
      var e := events[0];
      assert SilentEvent(e) && Silent(e.role, e.parts[0]);
      assert e.role != "tool" by { NotInTool(e.role, e.parts[0]); }
      SilentParts(e.role, TimestampOr(e.timestamp, now), answered, e.parts, []);
      SilentEvents(events[1..], now, answered);
      ReadAppend(WriteEvent(e, now, answered), WriteEvents(events[1..], now, answered));
    }
  }

  lemma {:induction false} NotInTool(role: string, p: Part)
    requires Silent(role, p)
    ensures role != "tool"
  {}

  lemma {:induction false} MessagesHaveParts(s: Scan, events: seq<Event>)
    requires CheckEvents(s, events).Fine?
    ensures forall e :: e in events ==> (e.kind.Message? ==> e.parts != [])
    decreases |events|
  {
    hide CheckParts;
    if events != [] { MessagesHaveParts(CheckEvent(s, events[0]).scan, events[1..]); }
  }

  /** Something comes back of a conversation if and only if there is more in it than media, outside tool messages, that
      no reader will make anything of. */
  lemma {:induction false} SomethingComesBack(events: seq<Event>, now: int)
    requires WellFormed(events)
    ensures RoundTrip(events, now) != [] <==> Speaks(events)
  {
    hide CheckEvents, ShapedEvent, Heal, Loss, WriteEvents, Read, Answered, SilentEvent;
    EventsShaped(UNREAD, events);
    MessagesHaveParts(UNREAD, events);
    if Speaks(events) {
      EventsWeigh(events, now, Answered(events));
      EventsOutweighLoss(Answered(events), events);
    } else {
      forall e | e in events ensures SilentEvent(e) && e.parts != [] { SilentIsMessage(e); }
      SilentEvents(events, now, Answered(events));
    }
  }

  lemma {:induction false} SilentIsMessage(e: Event)
    ensures SilentEvent(e) ==> e.kind.Message?
  {}

  const COMMA_SHOT := MediaRef("image/a,b", "QQ==", "", "")

  lemma {:induction false} CommaShotIsLost()
    ensures SoundMedia(COMMA_SHOT) && Carried(COMMA_SHOT).None?
  {
    PayloadDecodes();
    var t := "image/a,b";
    assert t[0] == 'i' && !IsSpace('i') && !Blank(t);
    assert t[7] == ',';
    hide Blank, Carried, IsBase64;
    InlineCarried(COMMA_SHOT);
  }

  /** A message of nothing but an image whose type holds a comma is valid, and nothing comes back of it. */
  lemma {:induction false} NothingComesBack(now: int)
    ensures var events := [MessageEvent("user", 1, [MediaPart(COMMA_SHOT, "", false)])];
      WellFormed(events) && RoundTrip(events, now) == []
  {
    var p := MediaPart(COMMA_SHOT, "", false);
    var e := MessageEvent("user", 1, [p]);
    CommaShotIsLost();
    assert MediaOf(p) == COMMA_SHOT;
    hide SoundMedia, Carried;
    LoneShotChecks(p, e);
    assert SilentEvent(e) && !Speaks([e]);
    hide WellFormed, RoundTrip, Speaks;
    SomethingComesBack([e], now);
  }

  lemma {:induction false} LoneShotChecks(p: Part, e: Event)
    requires p.kind.Media? && p.callId == "" && SoundMedia(MediaOf(p)) && e == MessageEvent("user", 1, [p])
    ensures WellFormed([e])
  {
    hide Blank, IsBase64;
    assert [p][1..] == [] && [e][1..] == [];
    assert CheckPart(UNREAD, "user", p) == Fine(UNREAD);
    hide CheckPart;
    assert CheckParts(UNREAD, "user", [p]) == Fine(UNREAD);
    hide CheckParts;
    assert CheckEvent(UNREAD, e).Fine?;
    var s := CheckEvent(UNREAD, e).scan;
    hide CheckEvent;
    assert CheckEvents(s, []) == Fine(s) && CheckEvents(UNREAD, [e]) == CheckEvents(s, [e][1..]);
  }
}
