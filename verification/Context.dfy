/** The append-only request context and its compaction (context.py).

    Tool payloads are JSON text. The codec is a parameter: `parse` gives the fields the code
    looks at (None for anything but an object), `render` writes a collapsed object. */
module Context {
  import opened Sequences

  datatype Role = System | User | Assistant | ToolResult

  /** `callsLength` is the length of the serialized tool calls of an assistant message. */
  datatype Message = Message(role: Role, callId: string, name: string, content: string, callsLength: nat)

  datatype Payload = Payload(ok: Option<bool>, summary: string, artifacts: seq<string>, collapsed: bool)

  datatype Codec = Codec(parse: string -> Option<Payload>, render: Payload -> string)

  /** A printed object reads back as itself and, holding the note text, is not tiny. */
  ghost predicate Faithful(codec: Codec) {
    forall p :: codec.parse(codec.render(p)) == Some(p) && |codec.render(p)| >= 4
  }

  datatype CompactionEvent = CompactionEvent(atMessageIndex: nat, tokensBefore: nat, tokensAfter: nat,
                                             collapsedResults: nat)

  function Characters(messages: seq<Message>): nat {
    if messages == [] then 0
    else
      var last := messages[|messages| - 1];
      Characters(messages[..|messages| - 1]) + |last.content| + last.callsLength
  }

  /** Four characters a token. */
  function Tokens(messages: seq<Message>): nat { Characters(messages) / 4 }

  predicate IsCollapsed(codec: Codec, m: Message) {
    var parsed := codec.parse(m.content);
    parsed.Some? && parsed.value.collapsed
  }

  function Collapse(codec: Codec, m: Message): Message {
    var kept := match codec.parse(m.content)
      case Some(p) => Payload(p.ok, p.summary, p.artifacts, true)
      case None => Payload(None, if |m.content| > 200 then m.content[..200] else m.content, [], true);
    m.(content := codec.render(kept))
  }

  predicate IsTool(m: Message) { m.role == ToolResult }

  /** A tool result that compaction can still shrink to its summary. */
  predicate Collapsible(codec: Codec, m: Message) { IsTool(m) && !IsCollapsed(codec, m) }

  /** The messages with every tool result before `n` collapsed. */
  function CollapseBefore(codec: Codec, m0: seq<Message>, n: nat): (r: seq<Message>)
    requires n <= |m0|
    ensures |r| == |m0|
  {
    if n == 0 then m0
    else
      var r := CollapseBefore(codec, m0, n - 1);
      if Collapsible(codec, m0[n - 1]) then r[n - 1 := Collapse(codec, m0[n - 1])] else r
  }

  /** How many tool results before `n` that collapses. */
  function Collapses(codec: Codec, m0: seq<Message>, n: nat): nat
    requires n <= |m0|
  {
    if n == 0 then 0
    else Collapses(codec, m0, n - 1) + if Collapsible(codec, m0[n - 1]) then 1 else 0
  }

  /** The first of them, or the number of messages if there is none. */
  function FirstTouched(codec: Codec, m0: seq<Message>, n: nat): (r: nat)
    requires n <= |m0|
    ensures r < n || (r == |m0| && Collapses(codec, m0, n) == 0)
    ensures r < n ==> Collapsible(codec, m0[r]) && Collapses(codec, m0, n) > 0
    ensures forall i :: 0 <= i < r && i < n ==> !Collapsible(codec, m0[i])
  {
    if n == 0 then |m0|
    else Min(FirstTouched(codec, m0, n - 1), if Collapsible(codec, m0[n - 1]) then n - 1 else |m0|)
  }

  function Min(a: nat, b: nat): nat { if a < b then a else b }

  /** Tool results at or after `i`. */
  function ToolsFrom(m0: seq<Message>, i: nat): nat
    requires i <= |m0|
    decreases |m0| - i
  {
    if i == |m0| then 0 else ToolsFrom(m0, i + 1) + if IsTool(m0[i]) then 1 else 0
  }

  /** The last `keep` tool results are recent, the others old. */
  predicate Recent(m0: seq<Message>, i: nat, keep: nat)
    requires i < |m0|
  {
    IsTool(m0[i]) && ToolsFrom(m0, i) <= keep
  }

  /** int(budget * hysteresis), less the overhead, not below zero. */
  function TargetMessages(budget: nat, hysteresis: real, overhead: nat): nat
    requires 0.0 <= hysteresis
  {
    var total := (budget as real * hysteresis).Floor;
    if total > overhead then total - overhead else 0
  }

  // ------------------------------------------------------- facts about collapsing

  lemma CollapseIsFinal(codec: Codec, m: Message)
    requires Faithful(codec)
    ensures IsCollapsed(codec, Collapse(codec, m))
    ensures Collapse(codec, m) == m.(content := Collapse(codec, m).content) && |Collapse(codec, m).content| >= 4
  {
    var kept := match codec.parse(m.content)
      case Some(p) => Payload(p.ok, p.summary, p.artifacts, true)
      case None => Payload(None, if |m.content| > 200 then m.content[..200] else m.content, [], true);
    assert codec.parse(codec.render(kept)) == Some(kept);
  }

  /** Message by message. */
  lemma {:induction false} CollapsedAt(codec: Codec, m0: seq<Message>, n: nat, i: nat)
    requires n <= |m0| && i < |m0|
    ensures CollapseBefore(codec, m0, n)[i]
         == if i < n && Collapsible(codec, m0[i]) then Collapse(codec, m0[i]) else m0[i]
  {
    if n > 0 { CollapsedAt(codec, m0, n - 1, i); }
  }

  /** `now` is the tool result `was` reduced to its summary: read back, it has the old ok, summary
      and artifacts, or, where nothing could be read, the first 200 characters and no artifacts. */
  predicate Summarised(codec: Codec, now: Message, was: Message) {
    var read, kept := codec.parse(was.content), codec.parse(now.content);
    && was.role == ToolResult && now == Message(ToolResult, was.callId, was.name, now.content, was.callsLength)
    && kept.Some? && kept.value.collapsed
    && if read.Some?
       then && kept.value.ok == read.value.ok && kept.value.summary == read.value.summary
            && kept.value.artifacts == read.value.artifacts
       else && kept.value.ok == None && kept.value.artifacts == []
            && kept.value.summary == if |was.content| <= 200 then was.content else was.content[..200]
  }

  /** The messages before `n` that are tool results not yet collapsed are summarised, and every
      other message is as it was. */
  predicate SummarisedBefore(codec: Codec, now: seq<Message>, was: seq<Message>, n: nat) {
    && |now| == |was|
    && forall i :: 0 <= i < |was| ==>
         var read := codec.parse(was[i].content);
         if i < n && was[i].role == ToolResult && !(read.Some? && read.value.collapsed)
         then Summarised(codec, now[i], was[i]) else now[i] == was[i]
  }

  lemma CollapseSummarises(codec: Codec, m: Message)
    requires Faithful(codec) && m.role == ToolResult
    ensures Summarised(codec, Collapse(codec, m), m)
  {
    var now := Collapse(codec, m);
    match codec.parse(m.content)
    case Some(p) => assert now.content == codec.render(Payload(p.ok, p.summary, p.artifacts, true));
    case None =>
      var start := if |m.content| > 200 then m.content[..200] else m.content;
      assert now.content == codec.render(Payload(None, start, [], true));
  }

  /** What collapsing leaves of a conversation, read back through the codec. */
  lemma CollapseBeforeMeans(codec: Codec, m0: seq<Message>, n: nat)
    requires Faithful(codec) && n <= |m0|
    ensures SummarisedBefore(codec, CollapseBefore(codec, m0, n), m0, n)
  {
    forall i | 0 <= i < |m0| && i < n && Collapsible(codec, m0[i])
      ensures Summarised(codec, CollapseBefore(codec, m0, n)[i], m0[i])
    {
      CollapsedAt(codec, m0, n, i);
      CollapseSummarises(codec, m0[i]);
    }
    forall i | 0 <= i < |m0| && !(i < n && Collapsible(codec, m0[i]))
      ensures CollapseBefore(codec, m0, n)[i] == m0[i]
    {
      CollapsedAt(codec, m0, n, i);
    }
  }

  /** The estimate adds up over the messages and is four characters a token, rounded down. */
  lemma {:induction false} EstimateAddsUp(a: seq<Message>, b: seq<Message>)
    ensures Characters(a + b) == Characters(a) + Characters(b)
    ensures 4 * Tokens(a) <= Characters(a) < 4 * Tokens(a) + 4
    ensures |a| == 1 ==> Characters(a) == |a[0].content| + a[0].callsLength
  {
    if b == [] {
      assert a + b == a;
    } else {
      var n := |b| - 1;
      assert (a + b)[..|a + b| - 1] == a + b[..n];
      EstimateAddsUp(a, b[..n]);
    }
    if |a| == 1 { assert Characters(a[..0]) == 0; }
  }

  function ToolResults(): Message -> bool { (m: Message) => m.role == ToolResult }

  /** A tool result is recent exactly when it is among the last `keep` of them. */
  lemma RecentExactly(m0: seq<Message>, i: nat, keep: nat)
    requires i < |m0|
    ensures Recent(m0, i, keep) <==> m0[i].role == ToolResult && |Filter(ToolResults(), m0[i..])| <= keep
  {
    ToolsFromCount(m0, i);
  }

  lemma {:induction false} ToolsFromCount(m0: seq<Message>, i: nat)
    requires i <= |m0|
    ensures ToolsFrom(m0, i) == |Filter(ToolResults(), m0[i..])|
    decreases |m0| - i
  {
    if i < |m0| {
      ToolsFromCount(m0, i + 1);
      assert m0[i..][1..] == m0[i + 1..];
    }
  }

  /** The messages are brought down to the given share of the budget less the overhead, rounded
      down to whole tokens. */
  lemma TargetExactly(budget: nat, hysteresis: real, overhead: nat)
    requires 0.0 <= hysteresis
    ensures var target := TargetMessages(budget, hysteresis, overhead);
            var share := budget as real * hysteresis;
            if share < (overhead + 1) as real then target == 0
            else (target + overhead) as real <= share < (target + overhead + 1) as real
  {
    var share := budget as real * hysteresis;
    assert share.Floor as real <= share < share.Floor as real + 1.0;
  }

  lemma CharactersAtLeast(messages: seq<Message>, i: nat)
    requires i < |messages|
    ensures |messages[i].content| <= Characters(messages)
  {
    if i < |messages| - 1 {
      CharactersAtLeast(messages[..|messages| - 1], i);
    }
  }

  /** A kept message is as it was appended, or is that one collapsed, once. */
  predicate Descends(codec: Codec, now: Message, was: Message) {
    now == was || (Collapsible(codec, was) && now == Collapse(codec, was))
  }

  /** Number of messages compaction has rewritten. */
  function Rewritten(now: seq<Message>, appended: seq<Message>): nat
    requires |now| == |appended|
  {
    if now == [] then 0
    else
      var n := |now| - 1;
      Rewritten(now[..n], appended[..n]) + if now[n] != appended[n] then 1 else 0
  }

  lemma {:induction false} RewrittenUpdate(now: seq<Message>, appended: seq<Message>, i: nat, m: Message)
    requires i < |now| == |appended| && now[i] == appended[i] && m != appended[i]
    ensures Rewritten(now[i := m], appended) == Rewritten(now, appended) + 1
  {
    var n := |now| - 1;
    if i < n {
      RewrittenUpdate(now[..n], appended[..n], i, m);
      assert now[i := m][..n] == now[..n][i := m];
    } else {
      assert now[i := m][..n] == now[..n];
    }
  }

  lemma {:induction false} RewrittenAtMostTools(now: seq<Message>, appended: seq<Message>)
    requires |now| == |appended|
    requires forall i :: 0 <= i < |now| && now[i] != appended[i] ==> IsTool(appended[i])
    ensures Rewritten(now, appended) <= ToolCount(appended)
  {
    if now != [] {
      var n := |now| - 1;
      RewrittenAtMostTools(now[..n], appended[..n]);
    }
  }

  function ToolCount(messages: seq<Message>): nat {
    if messages == [] then 0
    else ToolCount(messages[..|messages| - 1]) + if IsTool(messages[|messages| - 1]) then 1 else 0
  }

  function CollapsedInAll(events: seq<CompactionEvent>): nat {
    if events == [] then 0
    else CollapsedInAll(events[..|events| - 1]) + events[|events| - 1].collapsedResults
  }

  lemma {:induction false} EventsAtMostCollapsed(events: seq<CompactionEvent>)
    requires forall e :: e in events ==> e.collapsedResults > 0
    ensures |events| <= CollapsedInAll(events)
  {
    if events != [] { EventsAtMostCollapsed(events[..|events| - 1]); }
  }

  /** A compaction collapses only messages still as they were appended, each to its summary. */
  lemma CollapseKeepsAppended(codec: Codec, m0: seq<Message>, appended: seq<Message>, n: nat, i: nat)
    requires Faithful(codec) && n <= |m0| == |appended| && i < |m0| && Descends(codec, m0[i], appended[i])
    ensures Descends(codec, CollapseBefore(codec, m0, n)[i], appended[i])
  {
    CollapsedAt(codec, m0, n, i);
    CollapseIsFinal(codec, appended[i]);
  }

  lemma {:induction false} CollapseCounted(codec: Codec, m0: seq<Message>, appended: seq<Message>, n: nat)
    requires Faithful(codec) && n <= |m0| == |appended|
    requires forall i :: 0 <= i < |m0| ==> Descends(codec, m0[i], appended[i])
    ensures Rewritten(CollapseBefore(codec, m0, n), appended) == Rewritten(m0, appended) + Collapses(codec, m0, n)
  {
    if n > 0 {
      var i := n - 1;
      CollapseCounted(codec, m0, appended, i);
      if Collapsible(codec, m0[i]) {
        CollapseIsFinal(codec, appended[i]);
        assert m0[i] == appended[i];
        CollapsedAt(codec, m0, i, i);
        RewrittenUpdate(CollapseBefore(codec, m0, i), appended, i, Collapse(codec, m0[i]));
      }
    }
  }

  /** What the recorded compactions say about the messages: each is as it was appended or
      collapsed once; the collapsed ones are as many as recorded; and each stands at or
      after a recorded index. */
  ghost predicate Accounted(codec: Codec, now: seq<Message>, appended: seq<Message>, events: seq<CompactionEvent>) {
    && |now| == |appended|
    && (forall i :: 0 <= i < |now| ==> Descends(codec, now[i], appended[i]))
    && (forall i :: 0 <= i < |now| && now[i] != appended[i] ==> exists e :: e in events && e.atMessageIndex <= i)
    && (forall e :: e in events ==> e.collapsedResults > 0)
    && CollapsedInAll(events) == Rewritten(now, appended)
  }

  lemma AccountedAppend(codec: Codec, now: seq<Message>, appended: seq<Message>, events: seq<CompactionEvent>,
                        m: Message)
    requires Accounted(codec, now, appended, events)
    ensures Accounted(codec, now + [m], appended + [m], events)
  {
    assert (now + [m])[..|now|] == now && (appended + [m])[..|now|] == appended;
  }

  lemma AccountedCompaction(codec: Codec, m0: seq<Message>, appended: seq<Message>, events: seq<CompactionEvent>,
                            stop: nat, e: CompactionEvent)
    requires Faithful(codec) && stop <= |m0| && Accounted(codec, m0, appended, events)
    requires e.atMessageIndex == FirstTouched(codec, m0, stop)
    requires e.collapsedResults == Collapses(codec, m0, stop) > 0
    ensures Accounted(codec, CollapseBefore(codec, m0, stop), appended, events + [e])
  {
    var now := CollapseBefore(codec, m0, stop);
    CollapseCounted(codec, m0, appended, stop);
    assert (events + [e])[..|events|] == events;
    forall i | 0 <= i < |now| ensures Descends(codec, now[i], appended[i]) {
      CollapseKeepsAppended(codec, m0, appended, stop, i);
    }
    forall i | 0 <= i < |now| && now[i] != appended[i]
      ensures exists x :: x in events + [e] && x.atMessageIndex <= i
    {
      if i < e.atMessageIndex {
        BelowFirst(codec, m0, stop, i);
        var x :| x in events && x.atMessageIndex <= i;
        assert x in events + [e];
      } else {
        assert e in events + [e];
      }
    }
  }

  lemma {:induction false} NothingCollapses(codec: Codec, m0: seq<Message>, n: nat)
    requires n <= |m0| && Collapses(codec, m0, n) == 0
    ensures CollapseBefore(codec, m0, n) == m0
    ensures forall i :: 0 <= i < n ==> !Collapsible(codec, m0[i])
  {
    if n > 0 { NothingCollapses(codec, m0, n - 1); }
  }

  lemma {:induction false} SameTools(codec: Codec, m0: seq<Message>, n: nat, i: nat)
    requires n <= |m0| && i <= |m0|
    ensures ToolsFrom(CollapseBefore(codec, m0, n), i) == ToolsFrom(m0, i)
    decreases |m0| - i
  {
    if i < |m0| {
      CollapsedAt(codec, m0, n, i);
      SameTools(codec, m0, n, i + 1);
    }
  }

  /** Below the first touched message nothing changes. */
  lemma BelowFirst(codec: Codec, m0: seq<Message>, n: nat, i: nat)
    requires n <= |m0| && i < |m0| && i < FirstTouched(codec, m0, n)
    ensures CollapseBefore(codec, m0, n)[i] == m0[i]
  {
    CollapsedAt(codec, m0, n, i);
  }

  lemma StablePrefix(codec: Codec, m0: seq<Message>, n: nat, k: nat)
    requires n <= |m0| && k <= FirstTouched(codec, m0, n) && k <= |m0|
    ensures CollapseBefore(codec, m0, n)[..k] == m0[..k]
  {
    forall i | 0 <= i < k ensures CollapseBefore(codec, m0, n)[i] == m0[i] { BelowFirst(codec, m0, n, i); }
  }

  // --------------------------------------------------------- one compaction's walk

  datatype Limits = Limits(overhead: nat, budget: nat, target: nat, keep: nat)

  ghost predicate Over(codec: Codec, m0: seq<Message>, n: nat, l: Limits)
    requires n <= |m0|
  {
    Tokens(CollapseBefore(codec, m0, n)) + l.overhead > l.budget
  }

  /** Every collapse before `n` was called for when it was made: a recent result only while
      the request, with everything older collapsed, still exceeded the budget; and none of
      them brought the messages down to the target. */
  ghost predicate CalledFor(codec: Codec, m0: seq<Message>, n: nat, l: Limits)
    requires n <= |m0|
  {
    n == 0 ||
      ( && CalledFor(codec, m0, n - 1, l)
        && (Collapsible(codec, m0[n - 1]) ==>
              && (Recent(m0, n - 1, l.keep) ==> Over(codec, m0, n - 1, l))
              && Tokens(CollapseBefore(codec, m0, n)) > l.target))
  }

  /** The loop ended for one of its three reasons, neither sooner nor later. */
  ghost predicate StoppedRightly(codec: Codec, m0: seq<Message>, stop: nat, l: Limits) {
    && stop <= |m0|
    && if CalledFor(codec, m0, stop, l)
       then stop == |m0| || (ToolsFrom(m0, stop) <= l.keep && !Over(codec, m0, stop, l))
       else
         && 0 < stop && CalledFor(codec, m0, stop - 1, l) && Collapsible(codec, m0[stop - 1])
         && (Recent(m0, stop - 1, l.keep) ==> Over(codec, m0, stop - 1, l))
         && Tokens(CollapseBefore(codec, m0, stop)) <= l.target
  }

  lemma Fraction(whole: real, part: real)
    requires 0.0 <= whole && 0.0 <= part <= 1.0
    ensures 0.0 <= whole * part <= whole
  {
    assert whole * (1.0 - part) >= 0.0;
  }

  lemma TargetWithin(budget: nat, hysteresis: real, overhead: nat)
    requires 0.0 <= hysteresis <= 1.0
    ensures var target := TargetMessages(budget, hysteresis, overhead);
            target > 0 ==> target + overhead <= budget
  {
    Fraction(budget as real, hysteresis);
    FloorBelow(budget as real * hysteresis, budget);
  }

  lemma FloorBelow(share: real, whole: nat)
    requires 0.0 <= share <= whole as real
    ensures 0 <= share.Floor <= whole
  {
    assert share.Floor as real <= share;
  }

  /** A request that met the hysteresis target, after at least one collapse, fits. */
  lemma TargetFits(messages: seq<Message>, i: nat, budget: nat, hysteresis: real, overhead: nat)
    requires 0.0 <= hysteresis <= 1.0 && i < |messages| && |messages[i].content| >= 4
    requires Tokens(messages) <= TargetMessages(budget, hysteresis, overhead)
    ensures Tokens(messages) + overhead <= budget
  {
    CharactersAtLeast(messages, i);
    TargetWithin(budget, hysteresis, overhead);
  }

  /** After the walk nothing is left to do: the request fits or every tool result is collapsed. */
  lemma WalkSettles(codec: Codec, m0: seq<Message>, stop: nat, l: Limits, hysteresis: real)
    requires Faithful(codec) && 0.0 <= hysteresis <= 1.0
    requires l.target == TargetMessages(l.budget, hysteresis, l.overhead)
    requires StoppedRightly(codec, m0, stop, l)
    ensures Over(codec, m0, stop, l) ==>
              forall i :: 0 <= i < |m0| ==> !Collapsible(codec, CollapseBefore(codec, m0, stop)[i])
  {
    if !CalledFor(codec, m0, stop, l) {
      CollapseIsFinal(codec, m0[stop - 1]);
      CollapsedAt(codec, m0, stop, stop - 1);
      TargetFits(CollapseBefore(codec, m0, stop), stop - 1, l.budget, hysteresis, l.overhead);
    } else if Over(codec, m0, stop, l) {
      forall i | 0 <= i < |m0| ensures !Collapsible(codec, CollapseBefore(codec, m0, stop)[i]) {
        CollapsedAt(codec, m0, stop, i);
        CollapseIsFinal(codec, m0[i]);
      }
    }
  }

  /** Stopping to keep recent results means something older was collapsed. */
  lemma StopsAfterProgress(codec: Codec, m0: seq<Message>, stop: nat, l: Limits)
    requires stop <= |m0| && Over(codec, m0, 0, l) && !Over(codec, m0, stop, l)
    ensures Collapses(codec, m0, stop) > 0
  {
    if Collapses(codec, m0, stop) == 0 { NothingCollapses(codec, m0, stop); }
  }

  // -------------------------------------------------------------- the manager

  class ContextManager {
    const codec: Codec
    const budget: nat
    const keepRecent: nat
    const hysteresis: real
    const margin: nat
    var overhead: nat
    var messages: seq<Message>
    var compactions: seq<CompactionEvent>

    /** Every message as it was appended. */
    ghost var appended: seq<Message>
    /** The last request, and how much of it no compaction has touched since. */
    ghost var sent: seq<Message>
    ghost var stable: nat

    ghost predicate Valid()
      reads this
    {
      && Faithful(codec) && 0.0 <= hysteresis <= 1.0
      && Accounted(codec, messages, appended, compactions)
      && stable <= |sent| <= |messages| && sent[..stable] == messages[..stable]
    }

    constructor (codec: Codec, budget: nat, keepRecent: nat := 6, hysteresis: real := 0.55, margin: nat := 128)
      requires Faithful(codec) && 0.0 <= hysteresis <= 1.0
      ensures Valid() && messages == [] && compactions == [] && overhead == 0
      ensures this.codec == codec && this.budget == budget && this.keepRecent == keepRecent
      ensures this.hysteresis == hysteresis && this.margin == margin
    {
      this.codec, this.budget, this.keepRecent := codec, budget, keepRecent;
      this.hysteresis, this.margin := hysteresis, margin;
      overhead, messages, compactions := 0, [], [];
      appended, sent, stable := [], [], 0;
    }

    function EstimatedRequestTokens(): nat
      reads this
    {
      Tokens(messages) + overhead
    }

    method Append(m: Message)
      requires Valid()
      modifies this
      ensures Valid()
      ensures messages == old(messages) + [m] && appended == old(appended) + [m]
      ensures overhead == old(overhead) && compactions == old(compactions)
      ensures sent == old(sent) && stable == old(stable)
    {
      AccountedAppend(codec, messages, appended, compactions, m);
      messages, appended := messages + [m], appended + [m];
      assert messages[..stable] == old(messages)[..stable];
    }

    /** `serialized` is the length of the serialized schemas; None when there are none. */
    method SetToolSchemas(serialized: Option<nat>)
      requires Valid()
      modifies this`overhead
      ensures Valid() && overhead >= old(overhead)
      ensures serialized.Some? ==> overhead >= serialized.value / 4 + margin && overhead > margin
      ensures overhead == old(overhead)
           || (serialized.Some? && overhead == margin + if serialized.value < 4 then 1 else serialized.value / 4)
    {
      if serialized.None? { return; }
      var estimate := (if serialized.value < 4 then 1 else serialized.value / 4) + margin;
      if estimate > overhead { overhead := estimate; }
    }

    method ObservePromptTokens(promptTokens: int, messageTokens: nat)
      requires Valid()
      modifies this`overhead
      ensures Valid() && overhead >= old(overhead)
      ensures promptTokens > 0 ==> overhead >= promptTokens - messageTokens + margin
      ensures overhead == old(overhead)
           || (promptTokens > 0
               && overhead == margin + if promptTokens > messageTokens then promptTokens - messageTokens else 0)
    {
      if promptTokens <= 0 { return; }
      var measured := if promptTokens > messageTokens then promptTokens - messageTokens else 0;
      if measured + margin > overhead { overhead := measured + margin; }
    }

    predicate NeedsCompaction()
      reads this
    {
      EstimatedRequestTokens() > budget
    }

    /** What is sent extends the last request unless a compaction came between, and in any
        case agrees with it below the first message compaction touched. */
    method ForRequest() returns (request: seq<Message>)
      requires Valid()
      modifies this`sent, this`stable
      ensures Valid() && request == messages && sent == messages && stable == |messages|
      ensures old(sent)[..old(stable)] <= request
      ensures old(stable) == |old(sent)| ==> old(sent) <= request
    {
      request := messages;
      assert old(sent)[..old(stable)] == request[..old(stable)];
      assert old(stable) == |old(sent)| ==> old(sent)[..old(stable)] == old(sent);
      sent, stable := messages, |messages|;
    }

    /** Nothing is left for compaction to do. */
    predicate Settled()
      reads this
    {
      !NeedsCompaction() || forall i :: 0 <= i < |messages| ==> !Collapsible(codec, messages[i])
    }

    ghost function CurrentLimits(): Limits
      requires 0.0 <= hysteresis
      reads this
    {
      Limits(overhead, budget, TargetMessages(budget, hysteresis, overhead), keepRecent)
    }

    /** The collapsing loop of `Compact`: tool results in order, old ones first. */
    method CollapseUntil(target: nat, ghost l: Limits) returns (collapsed: nat, firstTouched: nat, ghost stop: nat)
      requires NeedsCompaction() && l == Limits(overhead, budget, target, keepRecent)
      modifies this`messages
      ensures stop <= |old(messages)| && messages == CollapseBefore(codec, old(messages), stop)
      ensures collapsed == Collapses(codec, old(messages), stop)
      ensures firstTouched == FirstTouched(codec, old(messages), stop)
      ensures StoppedRightly(codec, old(messages), stop, l)
      ensures collapsed == 0 ==> stop == |messages|
    {
      ghost var m0 := messages;
      collapsed, firstTouched := 0, |messages|;
      var idx := 0;
      while idx < |messages|
        invariant idx <= |m0| && messages == CollapseBefore(codec, m0, idx)
        invariant collapsed == Collapses(codec, m0, idx) && firstTouched == FirstTouched(codec, m0, idx)
        invariant CalledFor(codec, m0, idx, l)
      {
        CollapsedAt(codec, m0, idx, idx);
        SameTools(codec, m0, idx, idx);
        if Recent(messages, idx, keepRecent) && EstimatedRequestTokens() <= budget {
          StopsAfterProgress(codec, m0, idx, l);
          stop := idx;
          return;
        }
        if IsTool(messages[idx]) && !IsCollapsed(codec, messages[idx]) {
          messages := messages[idx := Collapse(codec, messages[idx])];
          firstTouched := Min(firstTouched, idx);
          collapsed := collapsed + 1;
          if Tokens(messages) <= target {
            stop := idx + 1;
            return;
          }
        }
        idx := idx + 1;
      }
      stop := idx;
    }

    /** Collapse tool results, oldest first, until the request fits. `stop` is how far it went. */
    method Compact() returns (event: Option<CompactionEvent>, ghost stop: nat)
      requires Valid()
      modifies this`messages, this`compactions, this`stable
      ensures Valid() && Settled()
      ensures event.None? <==> old(Settled())
      ensures event.None? ==> messages == old(messages) && compactions == old(compactions) && stable == old(stable)
      ensures stop <= |old(messages)| && messages == CollapseBefore(codec, old(messages), stop)
      ensures SummarisedBefore(codec, messages, old(messages), stop)
      ensures old(NeedsCompaction()) ==> StoppedRightly(codec, old(messages), stop, CurrentLimits())
      ensures event.Some? ==> compactions == old(compactions) + [event.value]
      ensures event.Some? ==>
        && event.value.tokensBefore == old(EstimatedRequestTokens())
        && event.value.tokensAfter == EstimatedRequestTokens()
        && event.value.collapsedResults == Collapses(codec, old(messages), stop) > 0
        && event.value.atMessageIndex == FirstTouched(codec, old(messages), stop)
        && stable == Min(old(stable), event.value.atMessageIndex)
    {
      ghost var m0 := messages;
      event, stop := None, 0;
      var before := EstimatedRequestTokens();
      if before <= budget {
        CollapseBeforeMeans(codec, m0, 0);
        return;
      }
      var target := TargetMessages(budget, hysteresis, overhead);
      ghost var l := CurrentLimits();
      var collapsed, firstTouched;
      collapsed, firstTouched, stop := CollapseUntil(target, l);
      WalkSettles(codec, m0, stop, l, hysteresis);
      CollapseBeforeMeans(codec, m0, stop);
      if collapsed == 0 {
        NothingCollapses(codec, m0, stop);
        return;
      }
      var e := CompactionEvent(firstTouched, before, EstimatedRequestTokens(), collapsed);
      Record(e, m0, stop);
      event := Some(e);
    }

    /** Note a compaction that has just rewritten the messages. */
    method Record(e: CompactionEvent, ghost m0: seq<Message>, ghost stop: nat)
      requires Faithful(codec) && 0.0 <= hysteresis <= 1.0
      requires Accounted(codec, m0, appended, compactions)
      requires stop <= |m0| && messages == CollapseBefore(codec, m0, stop)
      requires stable <= |sent| <= |m0| && sent[..stable] == m0[..stable]
      requires e.atMessageIndex == FirstTouched(codec, m0, stop)
      requires e.collapsedResults == Collapses(codec, m0, stop) > 0
      modifies this`compactions, this`stable
      ensures Valid() && compactions == old(compactions) + [e] && stable == Min(old(stable), e.atMessageIndex)
    {
      AccountedCompaction(codec, m0, appended, compactions, stop, e);
      compactions := compactions + [e];
      stable := Min(stable, e.atMessageIndex);
      StablePrefix(codec, m0, stop, stable);
      assert sent[..stable] == m0[..stable];
    }
  }

  // ------------------------------------------------------------------ whole runs

  /** Compaction changes the content of tool results and nothing else. */
  lemma OnlyToolContentChanges(codec: Codec, m0: seq<Message>, n: nat, i: nat)
    requires Faithful(codec) && n <= |m0| && i < |m0|
    ensures var now := CollapseBefore(codec, m0, n)[i];
            now == m0[i].(content := now.content) && (now != m0[i] ==> IsTool(m0[i]))
  {
    CollapsedAt(codec, m0, n, i);
    CollapseIsFinal(codec, m0[i]);
  }

  /** Compactions never outnumber the tool results appended. */
  lemma CompactionsBounded(codec: Codec, now: seq<Message>, appended: seq<Message>, events: seq<CompactionEvent>)
    requires Accounted(codec, now, appended, events)
    ensures |events| <= CollapsedInAll(events) <= ToolCount(appended)
  {
    EventsAtMostCollapsed(events);
    RewrittenAtMostTools(now, appended);
  }

  datatype Op =
    | DoAppend(m: Message)
    | DoSchemas(serialized: Option<nat>)
    | DoObserve(promptTokens: int, messageTokens: nat)
    | DoCompact
    | DoSend

  /** Requests with no compaction between them extend one another. */
  ghost predicate PrefixesKept(requests: seq<seq<Message>>, marks: seq<nat>) {
    && |requests| == |marks|
    && forall i, j :: 0 <= i < j < |requests| && marks[i] == marks[j] ==> requests[i] <= requests[j]
  }

  ghost predicate Extended(requests: seq<seq<Message>>, marks: seq<nat>, compactions: nat, messages: seq<Message>) {
    && |requests| == |marks|
    && forall i :: 0 <= i < |requests| ==>
         marks[i] <= compactions && (marks[i] == compactions ==> requests[i] <= messages)
  }

  /** Any run of the manager. `marks` counts the compactions made before each request. */
  method Drive(ctx: ContextManager, ops: seq<Op>) returns (requests: seq<seq<Message>>, marks: seq<nat>)
    requires ctx.Valid() && ctx.messages == [] && ctx.compactions == []
    modifies ctx
    ensures ctx.Valid() && ctx.overhead >= old(ctx.overhead)
    ensures PrefixesKept(requests, marks)
    ensures |ctx.compactions| <= ToolCount(ctx.appended) && KeptOrSummarised(ctx.codec, ctx.messages, ctx.appended)
    ensures forall i :: 0 <= i < |ctx.messages| && (forall e :: e in ctx.compactions ==> i < e.atMessageIndex) ==>
              ctx.messages[i] == ctx.appended[i]
  {
    requests, marks := [], [];
    for i := 0 to |ops|
      invariant ctx.Valid() && ctx.overhead >= old(ctx.overhead)
      invariant PrefixesKept(requests, marks)
      invariant Extended(requests, marks, |ctx.compactions|, ctx.messages)
    {
      match ops[i]
      case DoAppend(m) => ctx.Append(m);
      case DoSchemas(serialized) => ctx.SetToolSchemas(serialized);
      case DoObserve(prompt, tokens) => ctx.ObservePromptTokens(prompt, tokens);
      case DoCompact => var event, stop := ctx.Compact();
      case DoSend =>
        var request := ctx.ForRequest();
        requests, marks := requests + [request], marks + [|ctx.compactions|];
    }
    CompactionsBounded(ctx.codec, ctx.messages, ctx.appended, ctx.compactions);
    AccountedMeans(ctx.codec, ctx.messages, ctx.appended, ctx.compactions);
  }

  /** However often it was compacted, a conversation holds every message as it was appended, or
      the summary of the tool result that was appended. */
  predicate KeptOrSummarised(codec: Codec, now: seq<Message>, appended: seq<Message>) {
    && |now| == |appended|
    && forall i :: 0 <= i < |now| ==> now[i] == appended[i] || Summarised(codec, now[i], appended[i])
  }

  lemma AccountedMeans(codec: Codec, now: seq<Message>, appended: seq<Message>, events: seq<CompactionEvent>)
    requires Faithful(codec) && Accounted(codec, now, appended, events)
    ensures KeptOrSummarised(codec, now, appended)
  {
    forall i | 0 <= i < |now| && now[i] != appended[i] ensures Summarised(codec, now[i], appended[i]) {
      assert Descends(codec, now[i], appended[i]);
      CollapseSummarises(codec, appended[i]);
    }
  }
}
