// What the YAML parser cannot take it refuses: from such a derivation it does
// not come to the end of the stream.

module YamlReject {
  import opened YamlEvents
  import opened YamlSteps
  import opened YamlGrammar
  import opened YamlAccept
  import opened YamlStream

  // ---------- the ends of flow sequences ----------

  // The ends less the starts of flow sequences among tokens.
  function Weight(k: Kind): int {
    if k == FlowSequenceEndToken then 1 else if k == FlowSequenceStartToken then -1 else 0
  }

  function Weigh(ts: seq<Token>): int {
    if ts == [] then 0 else Weight(ts[0].kind) + Weigh(ts[1..])
  }

  lemma {:induction false} WeighJoin(a: seq<Token>, b: seq<Token>)
    ensures Weigh(a + b) == Weigh(a) + Weigh(b)
    decreases |a|
  {
    if a == [] {
      assert a + b == b;
    } else {
      assert (a + b)[1..] == a[1..] + b;
      WeighJoin(a[1..], b);
    }
  }

  // The starts and ends in the tokens of a node match, and the stream does not
  // end in them.
  predicate Even(ts: seq<Token>) {
    Weigh(ts) == 0 && forall k :: 0 <= k < |ts| ==> ts[k].kind != StreamEndToken
  }

  lemma EvenJoin(a: seq<Token>, b: seq<Token>)
    requires Even(a) && Even(b)
    ensures Even(a + b)
  {
    WeighJoin(a, b);
  }

  lemma EvenOne(t: Token)
    requires Weight(t.kind) == 0 && t.kind != StreamEndToken
    ensures Even([t]) && Even([])
  {
    assert [t][1..] == [];
  }

  lemma {:induction false} NodeEven(n: Node)
    ensures Even(Tokens(n))
    decreases n
  {
    match n
    case Missing =>
    case Reference(name) => EvenOne(Tokens(n)[0]);
    case Leaf(props, text) =>
      PropsEven(props);
      if text.Some? {
        EvenOne(TextToken(text.value));
        EvenJoin(PropTokens(props), [TextToken(text.value)]);
      } else {
        assert PropTokens(props) + [] == PropTokens(props);
      }
    case Collection(s, props, entries, trailing) =>
      PropsEven(props);
      EntriesEven(s, entries, trailing, true);
      Enclosed(s, EntryTokens(s, entries, trailing, true));
      EvenJoin(PropTokens(props), Opening(s) + (EntryTokens(s, entries, trailing, true) + Closing(s)));
  }

  lemma PropsEven(p: Props)
    ensures Even(PropTokens(p))
  {
    hide Even;
    EvenOne(Sign(AnchorToken));
    var a := if p.anchor.Some? then [Sign(AnchorToken).(value := p.anchor.value)] else [];
    var t := if p.tag.Some? then [Sign(TagToken).(value := p.tag.value.handle, suffix := p.tag.value.suffix)] else [];
    if p.anchor.Some? { EvenOne(a[0]); }
    if p.tag.Some? { EvenOne(t[0]); }
    EvenJoin(a, t);
    EvenJoin(t, a);
  }

  lemma Enclosed(s: Shape, inner: seq<Token>)
    requires Even(inner)
    ensures Even(Opening(s) + (inner + Closing(s)))
  {
    var o, c := Opening(s), Closing(s);
    WeighJoin(inner, c);
    WeighJoin(o, inner + c);
    assert o != [] ==> o[1..] == [];
    assert c != [] ==> c[1..] == [];
  }

  lemma {:induction false} EntriesEven(s: Shape, entries: seq<Entry>, trailing: bool, first: bool)
    ensures Even(EntryTokens(s, entries, trailing, first))
    decreases entries
  {
    hide Even, OneTokens;
    EvenOne(Sign(FlowEntryToken));
    if entries != [] {
      var separator := if IsFlow(s) && !first then [Sign(FlowEntryToken)] else [];
      OneEven(s, entries[0]);
      EntriesEven(s, entries[1..], trailing, false);
      EvenJoin(OneTokens(s, entries[0]), EntryTokens(s, entries[1..], trailing, false));
      EvenJoin(separator, OneTokens(s, entries[0]) + EntryTokens(s, entries[1..], trailing, false));
    }
  }

  lemma {:induction false} OneEven(s: Shape, e: Entry)
    ensures Even(OneTokens(s, e))
    decreases e
  {
    hide Even, Tokens;
    EvenOne(Sign(KeyToken));
    EvenOne(Sign(ValueToken));
    EvenOne(Sign(BlockEntryToken));
    match e
    case Item(n) =>
      NodeEven(n);
      EvenJoin([Sign(BlockEntryToken)], Tokens(n));
    case Pair(hasKey, key, hasValue, value) =>
      NodeEven(key);
      NodeEven(value);
      var k := if hasKey then [Sign(KeyToken)] + Tokens(key) else [];
      var v := if hasValue then [Sign(ValueToken)] + Tokens(value) else [];
      EvenJoin([Sign(KeyToken)], Tokens(key));
      EvenJoin([Sign(ValueToken)], Tokens(value));
      EvenJoin(k, v);
  }

  // The same for the tokens from i on.
  function Balance(tokens: seq<Token>, i: nat): int {
    if i < |tokens| then Weigh(tokens[i..]) else 0
  }

  lemma BalanceOn(tokens: seq<Token>, i: nat, ts: seq<Token>)
    requires Stand(tokens, i, ts)
    ensures Balance(tokens, i) == Weigh(ts) + Balance(tokens, i + |ts|)
  {
    assert tokens[i..] == ts + tokens[i + |ts|..];
    WeighJoin(ts, tokens[i + |ts|..]);
  }

  lemma BalanceOne(tokens: seq<Token>, i: nat)
    requires i < |tokens|
    ensures Balance(tokens, i) == Weight(tokens[i].kind) + Balance(tokens, i + 1)
  {
    assert tokens[i..][1..] == tokens[i + 1..];
  }

  // ---------- the flow sequences that are open ----------

  function OpenOf(q: PState): nat {
    if q == AtFlowSequenceEntry || q == AtFlowSequenceEntryMappingKey || q == AtFlowSequenceEntryMappingValue
      || q == AtFlowSequenceEntryMappingEnd then 1 else 0
  }

  function OpenAll(states: seq<PState>): nat {
    if states == [] then 0 else OpenAll(states[..|states| - 1]) + OpenOf(states[|states| - 1])
  }

  lemma OpenPush(states: seq<PState>, q: PState)
    ensures OpenAll(states + [q]) == OpenAll(states) + OpenOf(q)
  {
    assert (states + [q])[..|states|] == states;
  }

  // The ends still to come less the flow sequences open: what is missing.
  function Spare(tokens: seq<Token>, c: Config): int {
    Balance(tokens, c.pos) - OpenAll(c.states)
  }

  function Deficit(tokens: seq<Token>, c: Config): int {
    Spare(tokens, c) - OpenOf(c.state)
  }

  // A collection is entered at its first token, and the end comes after the
  // token for it.
  predicate Entering(tokens: seq<Token>, c: Config) {
    match c.state
    case AtBlockSequenceFirstEntry => Is(tokens, c.pos, BlockSequenceStartToken)
    case AtBlockMappingFirstKey => Is(tokens, c.pos, BlockMappingStartToken)
    case AtFlowSequenceFirstEntry => Is(tokens, c.pos, FlowSequenceStartToken)
    case AtFlowMappingFirstKey => Is(tokens, c.pos, FlowMappingStartToken)
    case AtEnd => c.pos > 0 && Is(tokens, c.pos - 1, StreamEndToken)
    case _ => true
  }

  predicate Later(q: PState) {
    q != AtBlockSequenceFirstEntry && q != AtBlockMappingFirstKey && q != AtFlowSequenceFirstEntry && q != AtFlowMappingFirstKey
    && q != AtEnd
  }

  predicate AllLater(states: seq<PState>) {
    forall k :: 0 <= k < |states| ==> Later(states[k])
  }

  // After a step from where m ends were to spare, no more are.
  predicate Holds(tokens: seq<Token>, o: Outcome, m: int) {
    o.Gives? ==> Entering(tokens, o.next) && AllLater(o.next.states) && Deficit(tokens, o.next) <= m
  }

  lemma PoppedHolds(tokens: seq<Token>, c: Config, e: Event)
    requires AllLater(c.states)
    ensures Holds(tokens, Popped(c, e), Spare(tokens, c))
  {
    hide Balance;
  }

  lemma PropertiesHold(tokens: seq<Token>, i: nat, tags: seq<TagDirective>)
    ensures match PropertiesAt(tokens, i, tags)
      case NoProperties => true
      case Properties(_, _, j) => Balance(tokens, j) == Balance(tokens, i)
  {
    hide Balance, TagOf;
    if i < |tokens| { BalanceOne(tokens, i); }
    if i + 1 < |tokens| { BalanceOne(tokens, i + 1); }
  }

  lemma ContentHolds(tokens: seq<Token>, c: Config, block: bool, indentless: bool, anchor: string, tag: string)
    requires AllLater(c.states)
    ensures Holds(tokens, ContentStep(tokens, c, block, indentless, anchor, tag), Spare(tokens, c))
  {
    hide Balance, Popped, OpenAll;
    PoppedHolds(tokens, c, Scalar(anchor, tag, "", tag == "", false));
    if Is(tokens, c.pos, ScalarToken) {
      BalanceOne(tokens, c.pos);
      PoppedHolds(tokens, c.(pos := c.pos + 1), ScalarOf(tokens[c.pos], anchor, tag));
    }
  }

  lemma NodeHolds(tokens: seq<Token>, c: Config, block: bool, indentless: bool)
    requires AllLater(c.states)
    ensures Holds(tokens, NodeStep(tokens, c, block, indentless), Spare(tokens, c))
  {
    hide Balance, Popped, OpenAll, PropertiesAt, ContentStep, Holds;
    NothingHolds(tokens, Spare(tokens, c));
    if Is(tokens, c.pos, AliasToken) {
      BalanceOne(tokens, c.pos);
      PoppedHolds(tokens, c.(pos := c.pos + 1), Alias(tokens[c.pos].value));
    } else {
      PropertiesHold(tokens, c.pos, c.tags);
      match PropertiesAt(tokens, c.pos, c.tags)
      case NoProperties =>
      case Properties(anchor, tag, i) => ContentHolds(tokens, c.(pos := i), block, indentless, anchor, tag);
    }
  }

  lemma NothingHolds(tokens: seq<Token>, m: int)
    ensures Holds(tokens, Fails, m)
  {
  }

  lemma ThenNodeHolds(tokens: seq<Token>, c: Config, q: PState, block: bool, indentless: bool)
    requires AllLater(c.states) && Later(q)
    ensures Holds(tokens, ThenNode(tokens, c, q, block, indentless), Spare(tokens, c) - OpenOf(q))
  {
    hide Balance, OpenAll, NodeStep, Holds, OpenOf;
    OpenPush(c.states, q);
    NodeHolds(tokens, c.(states := c.states + [q]), block, indentless);
  }

  lemma ThenEmptyHolds(tokens: seq<Token>, c: Config, q: PState)
    requires AllLater(c.states) && Later(q)
    ensures Holds(tokens, ThenEmpty(c, q), Spare(tokens, c) - OpenOf(q))
  {
    hide Balance, OpenAll, OpenOf;
  }

  // The last token of a flow sequence is an end, and one less is open.
  lemma EndMarkedHolds(tokens: seq<Token>, c: Config, e: Event)
    requires AllLater(c.states) && c.pos < |tokens|
    ensures Holds(tokens, EndMarked(c, e), Spare(tokens, c) - Weight(tokens[c.pos].kind))
  {
    hide Balance, OpenAll, Popped, Holds;
    BalanceOne(tokens, c.pos);
    NothingHolds(tokens, Spare(tokens, c) - Weight(tokens[c.pos].kind));
    PoppedHolds(tokens, c.(pos := c.pos + 1, marks := if c.marks > 0 then c.marks - 1 else 0), e);
  }

  // A node, nothing, or the end of the collection, here and after the token at hand.
  lemma ChoicesHold(tokens: seq<Token>, c: Config, q: PState, block: bool, indentless: bool, e: Event)
    requires AllLater(c.states) && Later(q) && c.pos < |tokens|
    ensures var d, m := c.(pos := c.pos + 1), Spare(tokens, c) - OpenOf(q); var w := Weight(tokens[c.pos].kind);
      && Holds(tokens, ThenNode(tokens, d, q, block, indentless), m - w) && Holds(tokens, ThenEmpty(d, q), m - w)
      && Holds(tokens, ThenNode(tokens, c, q, block, indentless), m) && Holds(tokens, ThenEmpty(c, q), m)
      && Holds(tokens, EndMarked(c, e), m + OpenOf(q) - w)
  {
    hide Balance, OpenAll, Holds, ThenNode, ThenEmpty, EndMarked, OpenOf, Weight;
    var d := c.(pos := c.pos + 1);
    BalanceOne(tokens, c.pos);
    ThenNodeHolds(tokens, d, q, block, indentless);
    ThenEmptyHolds(tokens, d, q);
    ThenNodeHolds(tokens, c, q, block, indentless);
    ThenEmptyHolds(tokens, c, q);
    EndMarkedHolds(tokens, c, e);
  }

  lemma BlockSequenceHolds(tokens: seq<Token>, c: Config)
    requires AllLater(c.states)
    ensures Holds(tokens, BlockSequenceStep(tokens, c), Spare(tokens, c))
    ensures Holds(tokens, IndentlessStep(tokens, c), Spare(tokens, c))
  {
    hide Balance, OpenAll, Holds, ThenNode, ThenEmpty, EndMarked, Popped, Spare;
    NothingHolds(tokens, Spare(tokens, c));
    if c.pos < |tokens| {
      PoppedHolds(tokens, c, SequenceEnd);
      ChoicesHold(tokens, c, AtBlockSequenceEntry, true, false, SequenceEnd);
      ChoicesHold(tokens, c, AtIndentlessSequenceEntry, true, false, SequenceEnd);
    }
  }

  lemma BlockMappingHolds(tokens: seq<Token>, c: Config)
    requires AllLater(c.states)
    ensures Holds(tokens, BlockKeyStep(tokens, c), Spare(tokens, c))
    ensures Holds(tokens, BlockValueStep(tokens, c), Spare(tokens, c))
  {
    hide Balance, OpenAll, Holds, ThenNode, ThenEmpty, EndMarked, Popped, Spare;
    NothingHolds(tokens, Spare(tokens, c));
    if c.pos < |tokens| {
      ChoicesHold(tokens, c, AtBlockMappingValue, true, true, MappingEnd);
      ChoicesHold(tokens, c, AtBlockMappingKey, true, true, MappingEnd);
    }
  }

  lemma FlowItemHolds(tokens: seq<Token>, d: Config)
    requires AllLater(d.states) && d.pos < |tokens|
    ensures Holds(tokens, FlowItemStep(tokens, d), Spare(tokens, d) - 1)
  {
    hide Balance, OpenAll, Holds, ThenNode, ThenEmpty, EndMarked, Popped;
    ChoicesHold(tokens, d, AtFlowSequenceEntry, false, false, SequenceEnd);
    if Is(tokens, d.pos, KeyToken) { PairHolds(tokens, d); }
  }

  lemma PairHolds(tokens: seq<Token>, d: Config)
    requires AllLater(d.states) && Is(tokens, d.pos, KeyToken)
    ensures Holds(tokens, Gives(MappingStart("", "", true, true), d.(pos := d.pos + 1, state := AtFlowSequenceEntryMappingKey)), Spare(tokens, d) - 1)
  {
    hide Balance, OpenAll;
    BalanceOne(tokens, d.pos);
  }

  lemma FlowSequenceHolds(tokens: seq<Token>, c: Config, first: bool)
    requires AllLater(c.states)
    ensures Holds(tokens, FlowSequenceStep(tokens, c, first), Spare(tokens, c) - 1)
  {
    hide Balance, OpenAll, Holds, FlowItemStep, EndMarked;
    NothingHolds(tokens, Spare(tokens, c) - 1);
    if c.pos < |tokens| {
      BalanceOne(tokens, c.pos);
      EndMarkedHolds(tokens, c, SequenceEnd);
      FlowItemHolds(tokens, c);
      if c.pos + 1 < |tokens| { FlowItemHolds(tokens, c.(pos := c.pos + 1)); }
    }
  }

  // The token taken for a missing key may be an end that is missed later.
  lemma FlowPairHolds(tokens: seq<Token>, c: Config)
    requires AllLater(c.states)
    ensures Holds(tokens, FlowPairKeyStep(tokens, c), Spare(tokens, c) - 1)
    ensures Holds(tokens, FlowPairValueStep(tokens, c), Spare(tokens, c) - 1)
    ensures Is(tokens, c.pos, FlowSequenceEndToken) ==> Holds(tokens, FlowPairKeyStep(tokens, c), Spare(tokens, c) - 2)
  {
    hide Balance, OpenAll, Holds, ThenNode, ThenEmpty, EndMarked, Popped;
    NothingHolds(tokens, Spare(tokens, c) - 1);
    if c.pos < |tokens| {
      ChoicesHold(tokens, c, AtFlowSequenceEntryMappingValue, false, false, MappingEnd);
      ChoicesHold(tokens, c, AtFlowSequenceEntryMappingEnd, false, false, MappingEnd);
      HoldsLess(tokens, FlowPairKeyStep(tokens, c), Spare(tokens, c) - 2, Spare(tokens, c) - 1);
    }
  }

  lemma HoldsLess(tokens: seq<Token>, o: Outcome, m: int, n: int)
    ensures m <= n && Holds(tokens, o, m) ==> Holds(tokens, o, n)
  {
    hide Deficit;
  }

  lemma FlowEntryHolds(tokens: seq<Token>, d: Config)
    requires AllLater(d.states) && d.pos < |tokens|
    ensures Holds(tokens, FlowEntryStep(tokens, d), Spare(tokens, d))
  {
    hide Balance, OpenAll, Holds, ThenNode, ThenEmpty, EndMarked, Popped;
    NothingHolds(tokens, Spare(tokens, d));
    ChoicesHold(tokens, d, AtFlowMappingEmptyValue, false, false, MappingEnd);
    ChoicesHold(tokens, d, AtFlowMappingValue, false, false, MappingEnd);
  }

  lemma FlowMappingHolds(tokens: seq<Token>, c: Config, first: bool, empty: bool)
    requires AllLater(c.states)
    ensures Holds(tokens, FlowKeyStep(tokens, c, first), Spare(tokens, c))
    ensures Holds(tokens, FlowValueStep(tokens, c, empty), Spare(tokens, c))
  {
    hide Balance, OpenAll, Holds, FlowEntryStep, EndMarked, ThenNode, ThenEmpty;
    NothingHolds(tokens, Spare(tokens, c));
    if c.pos < |tokens| {
      BalanceOne(tokens, c.pos);
      ChoicesHold(tokens, c, AtFlowMappingKey, false, false, MappingEnd);
      FlowEntryHolds(tokens, c);
      if c.pos + 1 < |tokens| { FlowEntryHolds(tokens, c.(pos := c.pos + 1)); }
    }
  }

  lemma {:induction false} DirectivesHold(tokens: seq<Token>, i: nat, tags: seq<TagDirective>, version: bool)
    ensures match DirectivesAt(tokens, i, tags, version)
      case BadDirectives => true
      case Directives(_, j) => Balance(tokens, j) == Balance(tokens, i)
    decreases |tokens| - i
  {
    hide Balance, WithDefaults, Defined;
    if i < |tokens| { BalanceOne(tokens, i); }
    if Is(tokens, i, VersionDirectiveToken) {
      DirectivesHold(tokens, i + 1, tags, true);
    } else if Is(tokens, i, TagDirectiveToken) {
      DirectivesHold(tokens, i + 1, tags + [TagDirective(tokens[i].value, tokens[i].prefix)], version);
    }
  }

  lemma {:induction false} DocumentEndsHold(tokens: seq<Token>, i: nat)
    ensures Balance(tokens, PastDocumentEnds(tokens, i)) == Balance(tokens, i)
    decreases |tokens| - i
  {
    hide Balance;
    if Is(tokens, i, DocumentEndToken) {
      BalanceOne(tokens, i);
      DocumentEndsHold(tokens, i + 1);
    }
  }

  lemma ExplicitHolds(tokens: seq<Token>, c: Config)
    requires AllLater(c.states)
    ensures Holds(tokens, ExplicitStep(tokens, c), Spare(tokens, c))
  {
    hide Balance, OpenAll, DirectivesAt;
    DirectivesHold(tokens, c.pos, c.tags, false);
    OpenPush(c.states, AtDocumentEnd);
    match DirectivesAt(tokens, c.pos, c.tags, false)
    case BadDirectives =>
    case Directives(tags, i) => if Is(tokens, i, DocumentStartToken) { BalanceOne(tokens, i); }
  }

  lemma DocumentHolds(tokens: seq<Token>, c: Config, implicit: bool)
    requires AllLater(c.states)
    ensures Holds(tokens, DocumentStartStep(tokens, c, implicit), Spare(tokens, c))
    ensures Holds(tokens, DocumentEndStep(tokens, c), Spare(tokens, c))
    ensures Holds(tokens, StreamStartStep(tokens, c), Spare(tokens, c))
  {
    hide Balance, OpenAll, ExplicitStep, PastDocumentEnds, WithDefaults;
    var d := if implicit then c else c.(pos := PastDocumentEnds(tokens, c.pos));
    DocumentEndsHold(tokens, c.pos);
    ExplicitHolds(tokens, d);
    OpenPush(c.states, AtDocumentEnd);
    if c.pos < |tokens| { BalanceOne(tokens, c.pos); }
    if d.pos < |tokens| { BalanceOne(tokens, d.pos); }
  }

  lemma ContentStepHolds(tokens: seq<Token>, c: Config)
    requires AllLater(c.states)
    ensures Holds(tokens, DocumentContentStep(tokens, c), Spare(tokens, c))
  {
    hide Holds, NodeStep, Popped, Spare;
    NodeHolds(tokens, c, true, false);
    PoppedHolds(tokens, c, EMPTY);
  }

  // The start token of a flow sequence is taken when it becomes open.
  lemma EnteredSpare(tokens: seq<Token>, c: Config)
    requires Entering(tokens, c) && !Later(c.state) && c.state != AtEnd
    ensures Spare(tokens, Entered(c, true)) == Spare(tokens, c) + if c.state == AtFlowSequenceFirstEntry then 1 else 0
  {
    hide Balance, OpenAll;
    BalanceOne(tokens, c.pos);
  }

  // No step has more ends to spare after it.
  lemma StepHolds(tokens: seq<Token>, c: Config)
    requires Entering(tokens, c) && AllLater(c.states)
    ensures Holds(tokens, Step(tokens, c), Deficit(tokens, c))
  {
    hide Spare, Holds, Entering, AllLater, BlockSequenceStep, IndentlessStep, BlockKeyStep, BlockValueStep, FlowSequenceStep, FlowPairKeyStep,
      FlowPairValueStep, FlowPairEndStep, FlowKeyStep, FlowValueStep, StreamStartStep, DocumentStartStep, DocumentContentStep, DocumentEndStep,
      NodeStep, Entered;
    NothingHolds(tokens, Deficit(tokens, c));
    if !Later(c.state) && c.state != AtEnd {
      EnteredSpare(tokens, c);
      EnteredStates(c);
      BlockSequenceHolds(tokens, Entered(c, true));
      BlockMappingHolds(tokens, Entered(c, true));
      FlowSequenceHolds(tokens, Entered(c, true), true);
      FlowMappingHolds(tokens, Entered(c, true), true, false);
    } else if c.state != AtEnd {
      LaterHolds(tokens, c);
    }
  }

  lemma EnteredStates(c: Config)
    ensures Entered(c, true).states == c.states
  {
  }

  lemma LaterHolds(tokens: seq<Token>, c: Config)
    requires Later(c.state) && AllLater(c.states)
    ensures Holds(tokens, Step(tokens, c), Deficit(tokens, c))
  {
    hide Spare, Holds, Entering, AllLater, BlockSequenceStep, IndentlessStep, BlockKeyStep, BlockValueStep, FlowSequenceStep, FlowPairKeyStep,
      FlowPairValueStep, FlowPairEndStep, FlowKeyStep, FlowValueStep, StreamStartStep, DocumentStartStep, DocumentContentStep, DocumentEndStep,
      NodeStep;
    NothingHolds(tokens, Deficit(tokens, c));
    NodeHolds(tokens, c, true, false);
    NodeHolds(tokens, c, true, true);
    NodeHolds(tokens, c, false, false);
    BlockSequenceHolds(tokens, c);
    BlockMappingHolds(tokens, c);
    FlowSequenceHolds(tokens, c, false);
    FlowPairHolds(tokens, c);
    FlowMappingHolds(tokens, c, false, false);
    FlowMappingHolds(tokens, c, false, true);
    DocumentHolds(tokens, c, true);
    DocumentHolds(tokens, c, false);
    ContentStepHolds(tokens, c);
    PairEndHolds(tokens, c);
  }

  lemma PairEndHolds(tokens: seq<Token>, c: Config)
    requires AllLater(c.states)
    ensures Holds(tokens, FlowPairEndStep(tokens, c), Spare(tokens, c) - 1)
  {
    hide Balance, OpenAll;
  }

  lemma {:induction false} RunHolds(tokens: seq<Token>, c: Config, events: seq<Event>, d: Config)
    requires Runs(tokens, c, events, d) && Entering(tokens, c) && AllLater(c.states)
    ensures Deficit(tokens, d) <= Deficit(tokens, c) && Entering(tokens, d)
    decreases |events|
  {
    hide Step, Deficit, Entering, AllLater;
    if events != [] {
      StepHolds(tokens, c);
      RunHolds(tokens, Step(tokens, c).next, events[1..], d);
    }
  }

  // ---------- what comes to the end ----------

  // The parser comes to the end of the tokens, with nothing open.
  ghost predicate Finishes(tokens: seq<Token>, c: Config) {
    exists events, d :: Runs(tokens, c, events, d) && d.state == AtEnd && d.states == [] && d.pos == |tokens|
  }

  ghost predicate Wins(tokens: seq<Token>, o: Outcome) {
    o.Gives? && Finishes(tokens, o.next)
  }

  lemma FinishesStep(tokens: seq<Token>, c: Config)
    requires Finishes(tokens, c) && c.state != AtEnd
    ensures Wins(tokens, Step(tokens, c))
  {
    hide Step;
    var events, d :| Runs(tokens, c, events, d) && d.state == AtEnd && d.states == [] && d.pos == |tokens|;
    assert Runs(tokens, Step(tokens, c).next, events[1..], d);
  }

  lemma AtEndFails(tokens: seq<Token>, c: Config)
    ensures c.state == AtEnd ==> Step(tokens, c) == Fails
  {
  }

  lemma {:induction false} FinishesAfter(tokens: seq<Token>, c: Config, events: seq<Event>, d: Config)
    requires Finishes(tokens, c) && Runs(tokens, c, events, d)
    ensures Finishes(tokens, d)
    decreases |events|
  {
    hide Step, Finishes;
    if events != [] {
      AtEndFails(tokens, c);
      FinishesStep(tokens, c);
      FinishesAfter(tokens, Step(tokens, c).next, events[1..], d);
    }
  }

  lemma WinsAfter(tokens: seq<Token>, o: Outcome, events: seq<Event>, d: Config)
    requires Wins(tokens, o) && GivesAll(tokens, o, events, d)
    ensures Finishes(tokens, d)
  {
    hide Finishes, Runs;
    FinishesAfter(tokens, o.next, events[1..], d);
  }

  // What finishes misses no end of a flow sequence.
  lemma FinishesHolds(tokens: seq<Token>, c: Config)
    requires Finishes(tokens, c) && Entering(tokens, c) && AllLater(c.states)
    ensures Deficit(tokens, c) >= 0
  {
    hide Runs, Entering, AllLater;
    var events, d :| Runs(tokens, c, events, d) && d.state == AtEnd && d.states == [] && d.pos == |tokens|;
    RunHolds(tokens, c, events, d);
  }

  // ---------- nodes ----------

  // As many ends are to come as flow sequences are open.
  predicate Level(tokens: seq<Token>, c: Config, q: PState) {
    AllLater(c.states) && Spare(tokens, c) == OpenOf(q)
  }

  // Past tokens that match, the levels are the same.
  lemma LevelOn(tokens: seq<Token>, c: Config, ts: seq<Token>, q: PState, d: Config)
    requires Level(tokens, c, q) && Stand(tokens, c.pos, ts) && Even(ts) && d.pos == c.pos + |ts| && d.states == c.states
    ensures Level(tokens, d, q)
  {
    hide Balance, OpenAll, Stand, AllLater, OpenOf;
    BalanceOn(tokens, c.pos, ts);
  }

  lemma {:induction false} NodeWins(tokens: seq<Token>, c: Config, n: Node, block: bool, indentless: bool)
    requires Derived(n, block, indentless) && c.states != [] && AllLater(c.states) && Spare(tokens, c) == 0
    requires Stand(tokens, c.pos, Tokens(n)) && Follows(tokens, c.pos + |Tokens(n)|, indentless)
    requires Wins(tokens, NodeStep(tokens, c, block, indentless))
    ensures Supported(c.tags, n)
    decreases n, 1
  {
    hide *;
    WinsMeans(tokens, NodeStep(tokens, c, block, indentless));
    match n
    case Reference(name) => ReferenceSupported(c.tags, n);
    case Leaf(props, text) => LeafWins(tokens, c, n, block, indentless);
    case Collection(shape, props, entries, trailing) => CollectionWins(tokens, c, n, block, indentless);
    case Missing => ReferenceSupported(c.tags, n);
  }

  lemma ReferenceSupported(tags: seq<TagDirective>, n: Node)
    requires n.Reference? || n.Missing?
    ensures Supported(tags, n)
  {
  }

  lemma LeafWins(tokens: seq<Token>, c: Config, n: Node, block: bool, indentless: bool)
    requires n.Leaf? && Stand(tokens, c.pos, Tokens(n)) && Follows(tokens, c.pos + |Tokens(n)|, indentless)
    requires NodeStep(tokens, c, block, indentless).Gives?
    ensures Supported(c.tags, n)
  {
    hide NodeStep, PropTokens, TagIn, Tokens, Stand, AnchorOf;
    LeafStands(tokens, c.pos, n, block, indentless);
    PropsThen(tokens, c, n.props, block, indentless);
  }

  lemma CollectionTagged(tokens: seq<Token>, c: Config, n: Node, block: bool, indentless: bool)
    requires n.Collection? && Derived(n, block, indentless) && Stand(tokens, c.pos, Tokens(n)) && Follows(tokens, c.pos + |Tokens(n)|, indentless)
    requires NodeStep(tokens, c, block, indentless).Gives?
    ensures TagIn(c.tags, n.props).Some?
  {
    hide *;
    InsideStands(tokens, c.pos, n, block, indentless);
    PropsThen(tokens, c, n.props, block, indentless);
  }

  lemma {:induction false} CollectionWins(tokens: seq<Token>, c: Config, n: Node, block: bool, indentless: bool)
    requires n.Collection? && Derived(n, block, indentless) && c.states != [] && AllLater(c.states) && Spare(tokens, c) == 0
    requires Stand(tokens, c.pos, Tokens(n)) && Follows(tokens, c.pos + |Tokens(n)|, indentless)
    requires Wins(tokens, NodeStep(tokens, c, block, indentless))
    ensures Supported(c.tags, n)
    decreases n, 0
  {
    hide *;
    var s, start := n.shape, NodeStep(tokens, c, block, indentless);
    WinsMeans(tokens, start);
    CollectionTagged(tokens, c, n, block, indentless);
    var d := Inside(tokens, c, n, block, indentless);
    EnteredAt(start.next, s);
    StepTurns(tokens, start.next, s);
    FirstNotEnd(s);
    FinishesStep(tokens, start.next);
    DerivedMeans(n, block, indentless);
    DerivedTrailing(n, block, indentless);
    InsideLevel(tokens, c, n, d);
    EntriesWin(tokens, d, s, n.entries, n.trailing, true, true);
    CollectionSupported(c.tags, n);
  }

  lemma WinsMeans(tokens: seq<Token>, o: Outcome)
    requires Wins(tokens, o)
    ensures o.Gives? && Finishes(tokens, o.next)
  {
    hide Finishes;
  }

  lemma FirstNotEnd(s: Shape)
    ensures FirstState(s) != AtEnd && EntryState(s) != AtEnd && ValueState(s) != AtEnd && Later(EntryState(s)) && Later(ValueState(s)) && Later(DoneState(s))
    ensures OpenOf(EntryState(s)) == if s == FlowSequence then 1 else 0
    ensures IsMapping(s) ==> s != FlowSequence
    ensures HasPairs(s) ==> OpenOf(ValueState(s)) == OpenOf(DoneState(s)) == OpenOf(EntryState(s))
  {
  }

  lemma DerivedTrailing(n: Node, block: bool, indentless: bool)
    requires n.Collection? && Derived(n, block, indentless)
    ensures n.trailing ==> IsFlow(n.shape) && n.entries != []
  {
    hide DerivedAll;
  }

  lemma CollectionSupported(tags: seq<TagDirective>, n: Node)
    requires n.Collection? && TagIn(tags, n.props).Some? && SupportedAll(tags, n.shape, n.entries, n.trailing)
    ensures Supported(tags, n)
  {
    hide SupportedAll;
  }

  lemma InsideLevel(tokens: seq<Token>, c: Config, n: Node, d: Config)
    requires n.Collection? && AllLater(c.states) && Spare(tokens, c) == 0 && Stand(tokens, c.pos, Tokens(n))
    requires d.pos == c.pos + |PropTokens(n.props)| + |Opening(n.shape)| && d.states == c.states
    ensures Level(tokens, d, EntryState(n.shape))
  {
    hide *;
    var ts, inner := PropTokens(n.props), EntryTokens(n.shape, n.entries, n.trailing, true) + Closing(n.shape);
    var e := c.(pos := c.pos + |ts|);
    CollectionTokens(n);
    StandSplit(tokens, c.pos, ts, Opening(n.shape) + inner);
    StandSplit(tokens, e.pos, Opening(n.shape), inner);
    PropsEven(n.props);
    OpeningWeighs(n.shape, ts);
    SpareOn(tokens, c, ts, e);
    SpareOn(tokens, e, Opening(n.shape), d);
    LevelIs(tokens, d, EntryState(n.shape));
  }

  lemma OpeningWeighs(s: Shape, ts: seq<Token>)
    ensures Weigh(Opening(s)) + OpenOf(EntryState(s)) == 0
    ensures Even(ts) ==> Weigh(ts) == 0
  {
    if s != Indentless { assert Opening(s)[1..] == []; }
  }

  lemma SpareOn(tokens: seq<Token>, c: Config, ts: seq<Token>, d: Config)
    requires Stand(tokens, c.pos, ts) && d.pos == c.pos + |ts| && d.states == c.states
    ensures Spare(tokens, d) == Spare(tokens, c) - Weigh(ts)
  {
    hide Balance, OpenAll, Stand;
    BalanceOn(tokens, c.pos, ts);
  }

  lemma LevelIs(tokens: seq<Token>, d: Config, q: PState)
    ensures Level(tokens, d, q) <==> AllLater(d.states) && Spare(tokens, d) == OpenOf(q)
  {
    hide AllLater, Spare, OpenOf;
  }

  // ---------- entries ----------

  lemma {:induction false} EntriesWin(tokens: seq<Token>, c: Config, s: Shape, entries: seq<Entry>, trailing: bool, first: bool, keyless: bool)
    requires c.states != [] && DerivedAll(s, entries, keyless) && (trailing ==> IsFlow(s) && !(first && entries == []))
    requires Stand(tokens, c.pos, EntryTokens(s, entries, trailing, first) + Closing(s))
    requires s == Indentless ==> Follows(tokens, c.pos + |EntryTokens(s, entries, trailing, first)|, true)
    requires Wins(tokens, Turn(tokens, c, s, first)) && Level(tokens, c, EntryState(s))
    ensures SupportedAll(c.tags, s, entries, trailing)
    decreases entries, 1
  {
    hide *;
    if entries == [] {
      NoneSupported(c.tags, s, trailing);
    } else {
      var e, rest, last := entries[0], EntryTokens(s, entries[1..], trailing, false) + Closing(s), |entries| == 1 && trailing;
      EntriesDerived(s, entries, keyless);
      EntryTokensAre(s, entries, trailing, first);
      var d := PastSeparator(tokens, c, s, e, rest, first, keyless);
      SeparatorLevel(tokens, c, d, s, first, OneTokens(s, e) + rest);
      if Losing(s, e) {
        LosingWins(tokens, d, s, entries, trailing, keyless);
      } else {
        var d' := d.(pos := d.pos + |OneTokens(s, e)|, state := EntryState(s));
        AfterOne(tokens, d'.pos, s, entries[1..], trailing, Complete(e));
        OneWins(tokens, d, s, e, keyless, last);
        OneRuns(tokens, d, s, e, keyless, last);
        WinsAfter(tokens, Past(tokens, d, s), OneEvents(d.tags, s, e), d');
        FirstNotEnd(s);
        FinishesStep(tokens, d');
        StepTurns(tokens, d', s);
        OneEven(s, e);
        LevelOn(tokens, d, OneTokens(s, e), EntryState(s), d');
        EntriesWin(tokens, d', s, entries[1..], trailing, false, Complete(e));
        MoreSupported(c.tags, s, entries, trailing);
      }
    }
  }

  lemma NoneSupported(tags: seq<TagDirective>, s: Shape, trailing: bool)
    ensures SupportedAll(tags, s, [], trailing)
  {
  }

  lemma MoreSupported(tags: seq<TagDirective>, s: Shape, entries: seq<Entry>, trailing: bool)
    requires entries != [] && SupportedOne(tags, s, entries[0], |entries| == 1 && trailing) && SupportedAll(tags, s, entries[1..], trailing)
    ensures SupportedAll(tags, s, entries, trailing)
  {
  }

  lemma EntriesDerived(s: Shape, entries: seq<Entry>, keyless: bool)
    requires entries != [] && DerivedAll(s, entries, keyless)
    ensures DerivedOne(s, entries[0], keyless) && DerivedAll(s, entries[1..], Complete(entries[0]))
  {
    hide DerivedOne;
  }

  lemma SeparatorLevel(tokens: seq<Token>, c: Config, d: Config, s: Shape, first: bool, ts: seq<Token>)
    requires var separator := if IsFlow(s) && !first then [Sign(FlowEntryToken)] else []; Stand(tokens, c.pos, separator + ts)
    requires d == c.(pos := c.pos + if IsFlow(s) && !first then 1 else 0) && Level(tokens, c, EntryState(s))
    ensures Level(tokens, d, EntryState(s))
  {
    hide Level, Stand, Even, EntryState;
    var separator := if IsFlow(s) && !first then [Sign(FlowEntryToken)] else [];
    StandSplit(tokens, c.pos, separator, ts);
    EvenOne(Sign(FlowEntryToken));
    LevelOn(tokens, c, separator, EntryState(s), d);
  }

  // ---------- pairs without a key in flow sequences ----------

  // The token after the key indicator is taken; the one after that has no place.
  lemma Misplaced(tokens: seq<Token>, d: Config)
    requires Is(tokens, d.pos, KeyToken) && (Is(tokens, d.pos + 1, ValueToken) || Is(tokens, d.pos + 1, FlowEntryToken))
    requires d.pos + 2 < |tokens| && tokens[d.pos + 2].kind != ValueToken && !Separates(tokens[d.pos + 2].kind)
    ensures !Wins(tokens, FlowItemStep(tokens, d))
  {
    hide *;
    var c1 := d.(pos := d.pos + 1, state := AtFlowSequenceEntryMappingKey);
    var c2 := d.(pos := d.pos + 2, state := AtFlowSequenceEntryMappingValue);
    var c3 := d.(pos := d.pos + 2, state := AtFlowSequenceEntryMappingEnd);
    var c4 := d.(pos := d.pos + 2, state := AtFlowSequenceEntry);
    MisplacedSteps(tokens, d, c1, c2, c3, c4);
    FailsNever(tokens, c4);
    NotBefore(tokens, c3, c4);
    NotBefore(tokens, c2, c3);
    NotBefore(tokens, c1, c2);
    GivesNever(tokens, FlowItemStep(tokens, d));
  }

  lemma FailsNever(tokens: seq<Token>, c: Config)
    requires Step(tokens, c) == Fails && c.state != AtEnd
    ensures !Finishes(tokens, c)
  {
    hide Step, Finishes;
    if Finishes(tokens, c) { FinishesStep(tokens, c); }
  }

  lemma NotBefore(tokens: seq<Token>, c: Config, d: Config)
    requires Step(tokens, c).Gives? && Step(tokens, c).next == d && c.state != AtEnd && !Finishes(tokens, d)
    ensures !Finishes(tokens, c)
  {
    hide Step, Finishes;
    if Finishes(tokens, c) { FinishesStep(tokens, c); }
  }

  lemma GivesNever(tokens: seq<Token>, o: Outcome)
    requires o.Gives? ==> !Finishes(tokens, o.next)
    ensures !Wins(tokens, o)
  {
    hide Finishes;
  }

  lemma MisplacedSteps(tokens: seq<Token>, d: Config, c1: Config, c2: Config, c3: Config, c4: Config)
    requires Is(tokens, d.pos, KeyToken) && (Is(tokens, d.pos + 1, ValueToken) || Is(tokens, d.pos + 1, FlowEntryToken))
    requires d.pos + 2 < |tokens| && tokens[d.pos + 2].kind != ValueToken && !Separates(tokens[d.pos + 2].kind)
    requires c1 == d.(pos := d.pos + 1, state := AtFlowSequenceEntryMappingKey) && c2 == d.(pos := d.pos + 2, state := AtFlowSequenceEntryMappingValue)
    requires c3 == c2.(state := AtFlowSequenceEntryMappingEnd) && c4 == c2.(state := AtFlowSequenceEntry)
    ensures FlowItemStep(tokens, d) == Gives(MappingStart("", "", true, true), c1)
    ensures Step(tokens, c1) == Gives(EMPTY, c2) && Step(tokens, c2) == Gives(EMPTY, c3) && Step(tokens, c3) == Gives(MappingEnd, c4)
    ensures Step(tokens, c4) == Fails
  {
  }

  // The end of the sequence is taken for the missing key, and missed later.
  lemma Swallowed(tokens: seq<Token>, d: Config)
    requires Is(tokens, d.pos, KeyToken) && Is(tokens, d.pos + 1, FlowSequenceEndToken) && Level(tokens, d, AtFlowSequenceEntry)
    ensures !Wins(tokens, FlowItemStep(tokens, d))
  {
    hide Balance, OpenAll, Step, FlowItemStep, FlowPairKeyStep, Finishes, Entering, AllLater;
    var c1 := d.(pos := d.pos + 1, state := AtFlowSequenceEntryMappingKey);
    PairStep(tokens, d);
    BalanceOne(tokens, d.pos);
    FlowPairHolds(tokens, c1);
    PairKeyStep(tokens, c1);
    var o := Step(tokens, c1);
    if Finishes(tokens, c1) {
      FinishesStep(tokens, c1);
      FinishesHolds(tokens, o.next);
    }
  }

  lemma PairKeyStep(tokens: seq<Token>, c: Config)
    requires c.state == AtFlowSequenceEntryMappingKey
    ensures Step(tokens, c) == FlowPairKeyStep(tokens, c)
  {
    hide FlowPairKeyStep;
  }

  lemma LosingWins(tokens: seq<Token>, d: Config, s: Shape, entries: seq<Entry>, trailing: bool, keyless: bool)
    requires entries != [] && Losing(s, entries[0]) && DerivedAll(s, entries, keyless)
    requires Stand(tokens, d.pos, OneTokens(s, entries[0]))
    requires Stand(tokens, d.pos + |OneTokens(s, entries[0])|, EntryTokens(s, entries[1..], trailing, false) + Closing(s))
    requires Wins(tokens, Past(tokens, d, s)) && Level(tokens, d, EntryState(s))
    ensures SupportedAll(d.tags, s, entries, trailing)
  {
    hide *;
    var rest := entries[1..];
    LosingEntry(s, entries, keyless);
    PastIsItem(tokens, d, s);
    StandOne(tokens, d.pos, Sign(KeyToken), []);
    LosingNext(tokens, d.pos + 1, rest, trailing);
    SignIs(tokens, d.pos);
    if rest != [] {
      Misplaced(tokens, d);
    } else if !trailing {
      Swallowed(tokens, d);
    } else {
      LosingSupported(d.tags, entries);
    }
  }

  lemma SignIs(tokens: seq<Token>, i: nat)
    ensures i < |tokens| && tokens[i] == Sign(KeyToken) ==> Is(tokens, i, KeyToken)
  {
  }

  lemma LosingEntry(s: Shape, entries: seq<Entry>, keyless: bool)
    requires entries != [] && Losing(s, entries[0]) && DerivedAll(s, entries, keyless)
    ensures s == FlowSequence && entries[0] == Pair(true, Missing, false, Missing) && DerivedAll(s, entries[1..], false)
    ensures OneTokens(s, entries[0]) == [Sign(KeyToken)] + [] && EntryState(s) == AtFlowSequenceEntry
  {
    assert DerivedOne(s, entries[0], keyless);
  }

  // What stands after a pair without key and value.
  lemma LosingNext(tokens: seq<Token>, i: nat, rest: seq<Entry>, trailing: bool)
    requires DerivedAll(FlowSequence, rest, false) && Stand(tokens, i, EntryTokens(FlowSequence, rest, trailing, false) + Closing(FlowSequence))
    ensures rest == [] && !trailing ==> Is(tokens, i, FlowSequenceEndToken)
    ensures rest != [] ==>
      Is(tokens, i, FlowEntryToken) && i + 1 < |tokens| && tokens[i + 1].kind != ValueToken && !Separates(tokens[i + 1].kind)
  {
    hide Stand, OneTokens, DerivedOne, DerivedAll;
    var s, close := FlowSequence, Closing(FlowSequence);
    if rest == [] && !trailing {
      assert EntryTokens(s, rest, trailing, false) + close == [Sign(FlowSequenceEndToken)] + [];
      StandOne(tokens, i, Sign(FlowSequenceEndToken), []);
    } else if rest != [] {
      EntryTokensAre(s, rest, trailing, false);
      EntriesDerived(s, rest, false);
      OneBegins(s, rest[0], false);
      NoValueFirst(rest[0]);
      var one, more := OneTokens(s, rest[0]), EntryTokens(s, rest[1..], trailing, false) + close;
      StandOne(tokens, i, Sign(FlowEntryToken), one + more);
      assert one + more == [one[0]] + (one[1..] + more);
      StandOne(tokens, i + 1, one[0], one[1..] + more);
    }
  }

  lemma NoValueFirst(e: Entry)
    requires DerivedOne(FlowSequence, e, false)
    ensures OneTokens(FlowSequence, e) != [] ==> OneTokens(FlowSequence, e)[0].kind != ValueToken
  {
    hide *;
    DerivedKey(e);
    DerivedSays(FlowSequence, e, false);
    FlowIs();
    if e.Item? { NodeBegins(e.node, false, false); BeginsNoValue(Tokens(e.node)[0].kind); }
    FirstOfOne(FlowSequence, e);
    KeyNoValue();
  }

  lemma DerivedKey(e: Entry)
    requires DerivedOne(FlowSequence, e, false)
    ensures e.Pair? ==> e.hasKey
  {
    hide Derived;
  }

  lemma FlowIs()
    ensures IsFlow(FlowSequence)
  {
  }

  lemma BeginsNoValue(k: Kind)
    requires Begins(k, false, false)
    ensures k != ValueToken
  {
  }

  lemma KeyNoValue()
    ensures Sign(KeyToken).kind != ValueToken
  {
  }

  lemma LosingSupported(tags: seq<TagDirective>, entries: seq<Entry>)
    requires entries != [] && entries[0] == Pair(true, Missing, false, Missing) && entries[1..] == []
    ensures SupportedAll(tags, FlowSequence, entries, true)
  {
    assert |entries| == 1 && SupportedAll(tags, FlowSequence, entries[1..], true);
    assert SupportedOne(tags, FlowSequence, entries[0], true);
  }

  // ---------- one entry ----------

  lemma {:induction false} SlotWins(tokens: seq<Token>, d: Config, n: Node, q: PState, block: bool, indentless: bool)
    requires Optional(n, block, indentless) && Later(q) && Level(tokens, d, q)
    requires Stand(tokens, d.pos, Tokens(n)) && Follows(tokens, d.pos + |Tokens(n)|, indentless)
    requires Wins(tokens, Slot(tokens, d, n, q, block, indentless))
    ensures Supported(d.tags, n)
    decreases n, 2
  {
    hide *;
    if n.Missing? {
      ReferenceSupported(d.tags, n);
    } else {
      PresentSlot(tokens, d, n, q, block, indentless);
      var e := d.(states := d.states + [q]);
      PushedLevel(tokens, d, q, e);
      NodeWins(tokens, e, n, block, indentless);
    }
  }

  lemma PushedLevel(tokens: seq<Token>, d: Config, q: PState, e: Config)
    requires Level(tokens, d, q) && Later(q) && e == d.(states := d.states + [q])
    ensures AllLater(e.states) && Spare(tokens, e) == 0 && e.states != []
  {
    hide Balance, OpenAll, OpenOf;
    OpenPush(d.states, q);
  }

  lemma {:induction false} OneWins(tokens: seq<Token>, c: Config, s: Shape, e: Entry, keyless: bool, lastSeparated: bool)
    requires DerivedOne(s, e, keyless) && !Losing(s, e)
    requires Stand(tokens, c.pos, OneTokens(s, e)) && AfterEntry(tokens, c.pos + |OneTokens(s, e)|, s, Complete(e))
    requires Wins(tokens, Past(tokens, c, s)) && Level(tokens, c, EntryState(s))
    ensures SupportedOne(c.tags, s, e, lastSeparated)
    decreases e
  {
    hide *;
    EntryKinds(s, e, keyless);
    if e.Item? {
      ItemWins(tokens, c, s, e, keyless);
      ItemSupported(c.tags, s, e, lastSeparated);
    } else {
      PairMeans(c.tags, s, e, keyless, lastSeparated);
      if !e.hasKey {
        KeylessFails(tokens, c, s, e, keyless);
        WinsMeans(tokens, Past(tokens, c, s));
      } else {
        PairWins(tokens, c, s, e, keyless);
      }
    }
  }

  lemma KeylessFails(tokens: seq<Token>, c: Config, s: Shape, e: Entry, keyless: bool)
    requires s == BlockMapping && e.Pair? && !e.hasKey && DerivedOne(s, e, keyless) && Stand(tokens, c.pos, OneTokens(s, e))
    ensures Past(tokens, c, s) == Fails
  {
    hide Stand, Derived, Tokens;
    assert OneTokens(s, e) == [Sign(ValueToken)] + Tokens(e.value);
    StandOne(tokens, c.pos, Sign(ValueToken), Tokens(e.value));
  }

  lemma {:induction false} ItemWins(tokens: seq<Token>, c: Config, s: Shape, e: Entry, keyless: bool)
    requires e.Item? && DerivedOne(s, e, keyless)
    requires Stand(tokens, c.pos, OneTokens(s, e)) && AfterEntry(tokens, c.pos + |OneTokens(s, e)|, s, Complete(e))
    requires Wins(tokens, Past(tokens, c, s)) && Level(tokens, c, EntryState(s))
    ensures Supported(c.tags, e.node)
    decreases e, 0
  {
    hide *;
    EntryKinds(s, e, keyless);
    FirstNotEnd(s);
    if IsFlow(s) {
      FlowItemMeans(tokens, c, s, e, keyless);
      var q := if s == FlowMapping then AtFlowMappingEmptyValue else AtFlowSequenceEntry;
      SameOpen(tokens, c, s, q);
      SlotWins(tokens, c, e.node, q, false, false);
    } else {
      ItemMeans(tokens, c, s, e, keyless);
      var d := c.(pos := c.pos + 1);
      TakenLevel(tokens, c, s, e, d);
      SlotWins(tokens, d, e.node, EntryState(s), true, false);
    }
  }

  lemma SameOpen(tokens: seq<Token>, c: Config, s: Shape, q: PState)
    requires Level(tokens, c, EntryState(s)) && q == (if s == FlowMapping then AtFlowMappingEmptyValue else AtFlowSequenceEntry) && IsFlow(s)
    ensures Level(tokens, c, q) && Later(q)
  {
    hide AllLater, Spare;
  }

  // Past the first token of an entry, an indicator.
  lemma TakenLevel(tokens: seq<Token>, c: Config, s: Shape, e: Entry, d: Config)
    requires Level(tokens, c, EntryState(s)) && Stand(tokens, c.pos, OneTokens(s, e)) && d.pos == c.pos + 1 && d.states == c.states
    requires if e.Item? then !IsFlow(s) else e.hasKey || e.hasValue
    ensures Level(tokens, d, EntryState(s))
  {
    hide Balance, OpenAll, Stand, AllLater, OpenOf, EntryState, Tokens;
    FirstOfOne(s, e);
    var ts := OneTokens(s, e);
    assert ts == [ts[0]] + ts[1..];
    StandOne(tokens, c.pos, ts[0], ts[1..]);
    BalanceOne(tokens, c.pos);
  }

  lemma {:induction false} ValueWins(tokens: seq<Token>, c: Config, s: Shape, e: Entry, keyless: bool)
    requires HasPairs(s) && e.Pair? && DerivedOne(s, e, keyless) && c.state == ValueState(s)
    requires Stand(tokens, c.pos, ValueTokens(e)) && AfterEntry(tokens, c.pos + |ValueTokens(e)|, s, e.hasValue)
    requires Finishes(tokens, c) && Level(tokens, c, EntryState(s))
    ensures Supported(c.tags, e.value)
    decreases e, 0
  {
    hide *;
    var d := c.(pos := c.pos + if e.hasValue then 1 else 0);
    ValueSteps(tokens, c, s, e, keyless);
    FirstNotEnd(s);
    FinishesStep(tokens, c);
    ValueLevel(tokens, c, s, e, d);
    SlotWins(tokens, d, e.value, DoneState(s), !IsFlow(s), !IsFlow(s));
  }

  lemma ValueLevel(tokens: seq<Token>, c: Config, s: Shape, e: Entry, d: Config)
    requires HasPairs(s) && e.Pair? && Stand(tokens, c.pos, ValueTokens(e)) && Level(tokens, c, EntryState(s))
    requires d == c.(pos := c.pos + if e.hasValue then 1 else 0)
    ensures Level(tokens, d, DoneState(s))
  {
    hide Balance, OpenAll, Stand, AllLater, Tokens;
    if e.hasValue {
      StandOne(tokens, c.pos, Sign(ValueToken), Tokens(e.value));
      BalanceOne(tokens, c.pos);
    }
  }

  lemma {:induction false} PairWins(tokens: seq<Token>, c: Config, s: Shape, e: Entry, keyless: bool)
    requires e.Pair? && e.hasKey && HasPairs(s) && DerivedOne(s, e, keyless) && !Losing(s, e)
    requires Stand(tokens, c.pos, OneTokens(s, e)) && AfterEntry(tokens, c.pos + |OneTokens(s, e)|, s, e.hasValue)
    requires Wins(tokens, Past(tokens, c, s)) && Level(tokens, c, EntryState(s))
    ensures Supported(c.tags, e.key) && Supported(c.tags, e.value) && (s == FlowSequence && e.key.Missing? ==> e.value.Missing? && e.hasValue)
    decreases e, 1
  {
    hide *;
    KeySteps(tokens, c, s, e, keyless);
    FirstNotEnd(s);
    var d, b := c.(pos := c.pos + 1), !IsFlow(s);
    TakenLevel(tokens, c, s, e, d);
    if s == FlowSequence && e.key.Missing? {
      PastIsItem(tokens, c, s);
      MissingPair(tokens, c, s, e, keyless);
    } else {
      var k := if s == FlowSequence then d.(state := AtFlowSequenceEntryMappingKey) else d;
      var v := d.(pos := d.pos + |Tokens(e.key)|, state := ValueState(s));
      KeyWins(tokens, c, s, e, k);
      KeyLevel(tokens, d, k, s);
      SlotWins(tokens, k, e.key, ValueState(s), b, b);
      SlotRuns(tokens, k, e.key, ValueState(s), b, b);
      WinsAfter(tokens, Slot(tokens, k, e.key, ValueState(s), b, b), Events(k.tags, e.key), v);
      NodeEven(e.key);
      LevelOn(tokens, d, Tokens(e.key), EntryState(s), v);
      ValueWins(tokens, v, s, e, keyless);
    }
  }

  lemma KeyLevel(tokens: seq<Token>, d: Config, k: Config, s: Shape)
    requires HasPairs(s) && Level(tokens, d, EntryState(s)) && k == d.(state := k.state)
    ensures Level(tokens, k, ValueState(s))
  {
    hide Balance, OpenAll, AllLater;
  }

  // The step that starts the key.
  lemma KeyWins(tokens: seq<Token>, c: Config, s: Shape, e: Entry, k: Config)
    requires HasPairs(s) && e.Pair? && Is(tokens, c.pos, KeyToken) && !(s == FlowSequence && e.key.Missing?) && Wins(tokens, Past(tokens, c, s))
    requires k == if s == FlowSequence then c.(pos := c.pos + 1, state := AtFlowSequenceEntryMappingKey) else c.(pos := c.pos + 1)
    requires IsMapping(s) ==> Past(tokens, c, s) == Slot(tokens, k, e.key, ValueState(s), !IsFlow(s), !IsFlow(s))
    requires s == FlowSequence ==> Step(tokens, k) == Slot(tokens, k, e.key, ValueState(s), !IsFlow(s), !IsFlow(s))
    ensures Wins(tokens, Slot(tokens, k, e.key, ValueState(s), !IsFlow(s), !IsFlow(s)))
  {
    hide Past, Slot, Step, Finishes, Wins, ValueState;
    if s == FlowSequence {
      PastIsItem(tokens, c, s);
      PairStep(tokens, c);
      WinsMeans(tokens, Past(tokens, c, s));
      FinishesStep(tokens, k);
    }
  }

  lemma MissingPair(tokens: seq<Token>, c: Config, s: Shape, e: Entry, keyless: bool)
    requires s == FlowSequence && e.Pair? && e.hasKey && e.key.Missing? && DerivedOne(s, e, keyless) && !Losing(s, e)
    requires Stand(tokens, c.pos, OneTokens(s, e)) && AfterEntry(tokens, c.pos + |OneTokens(s, e)|, s, e.hasValue)
    requires Wins(tokens, FlowItemStep(tokens, c))
    ensures Supported(c.tags, e.key) && Supported(c.tags, e.value) && e.value.Missing? && e.hasValue
  {
    hide *;
    ReferenceSupported(c.tags, e.key);
    LosingIsNot(s, e);
    MissingStands(tokens, c.pos, s, e, keyless);
    if e.value.Missing? {
      ReferenceSupported(c.tags, e.value);
    } else {
      Misplaced(tokens, c);
    }
  }

  lemma LosingIsNot(s: Shape, e: Entry)
    requires s == FlowSequence && e.Pair? && e.key.Missing? && !Losing(s, e)
    ensures e.hasValue
  {
  }

  lemma MissingStands(tokens: seq<Token>, i: nat, s: Shape, e: Entry, keyless: bool)
    requires s == FlowSequence && e.Pair? && e.hasKey && e.key.Missing? && e.hasValue && DerivedOne(s, e, keyless) && Stand(tokens, i, OneTokens(s, e))
    ensures Is(tokens, i, KeyToken) && Is(tokens, i + 1, ValueToken)
    ensures !e.value.Missing? ==> i + 2 < |tokens| && tokens[i + 2].kind != ValueToken && !Separates(tokens[i + 2].kind)
  {
    hide Stand, Derived;
    NoTokens(e.key);
    assert OneTokens(s, e) == [Sign(KeyToken)] + ([Sign(ValueToken)] + Tokens(e.value));
    StandOne(tokens, i, Sign(KeyToken), [Sign(ValueToken)] + Tokens(e.value));
    StandOne(tokens, i + 1, Sign(ValueToken), Tokens(e.value));
    SlotBegins(tokens, i + 2, e.value, false, false);
  }

  // ---------- documents and streams ----------

  lemma {:induction false} EndsEven(n: nat)
    ensures Even(EndTokens(n))
  {
    hide Even;
    EvenOne(Sign(DocumentEndToken));
    if n > 0 {
      EndsEven(n - 1);
      EvenJoin([Sign(DocumentEndToken)], EndTokens(n - 1));
    }
  }

  lemma {:induction false} DirectivesEven(ds: seq<Directive>)
    ensures Even(DirectiveTokens(ds))
  {
    hide Even;
    EvenOne(Sign(DocumentEndToken));
    if ds != [] {
      EvenOne(DirectiveToken(ds[0]));
      DirectivesEven(ds[1..]);
      EvenJoin([DirectiveToken(ds[0])], DirectiveTokens(ds[1..]));
    }
  }

  lemma HeadEven(d: Document)
    ensures Even(HeadTokens(d))
  {
    hide Even;
    EvenOne(Sign(DocumentStartToken));
    DirectivesEven(d.directives);
    EvenJoin(DirectiveTokens(d.directives), [Sign(DocumentStartToken)]);
  }

  lemma MissingLevel(tokens: seq<Token>, c: Config, d: Config, ts: seq<Token>)
    requires Stand(tokens, c.pos, ts) && Even(ts) && Balance(tokens, c.pos) == 0 && d.pos == c.pos + |ts|
    ensures Balance(tokens, d.pos) == 0
    ensures d.states == [AtDocumentEnd] ==> AllLater(d.states) && Spare(tokens, d) == 0
  {
    hide Balance, Stand;
    BalanceOn(tokens, c.pos, ts);
    assert OpenAll([AtDocumentEnd]) == 0 by { OpenPush([], AtDocumentEnd); assert [] + [AtDocumentEnd] == [AtDocumentEnd]; }
  }

  lemma {:induction false} RestWins(tokens: seq<Token>, c: Config, docs: seq<Document>, extra: nat, first: bool)
    requires Between(c, first) && (first ==> extra == 0) && DerivedStream(docs, first)
    requires Stand(tokens, c.pos, EndTokens(extra) + RestTokens(docs))
    requires Finishes(tokens, c) && Balance(tokens, c.pos) == 0
    ensures SupportedStream(docs)
    decreases |docs|
  {
    hide *;
    if docs == [] {
      NoDocuments(docs);
    } else {
      var d, docs' := docs[0], docs[1..];
      RestIs(docs, first);
      RestHeads(docs');
      HeadsNoEnd(RestTokens(docs')[0].kind);
      var after := EndTokens(d.ends) + RestTokens(docs');
      if !d.explicit { NodeBegins(d.root, true, false); }
      var c1 := DocumentEntered(c, d, extra);
      EnteredHas(c, d, extra);
      BetweenHas(c, first);
      HeadRuns(tokens, c, d, Tokens(d.root) + after, extra, first);
      BetweenOn(c, first);
      FinishesStep(tokens, c);
      WinsMeans(tokens, Step(tokens, c));
      HeadLevel(tokens, c, c1, d, extra, Tokens(d.root) + after);
      StandSplit(tokens, c1.pos, Tokens(d.root), after);
      var c2 := c1.(pos := c1.pos + |Tokens(d.root)|, state := AtDocumentEnd, states := []);
      RootFollowed(tokens, c2.pos, d.ends, RestTokens(docs'));
      RootWins(tokens, c1, d);
      RootRuns(tokens, c1, d);
      FinishesAfter(tokens, c1, Events(c1.tags, d.root), c2);
      NodeEven(d.root);
      MissingLevel(tokens, c1, c2, Tokens(d.root));
      var k := if d.ends > 0 then 1 else 0;
      var c3 := c2.(pos := c2.pos + k, state := AtDocumentStart, tags := []);
      DocumentEndRuns(tokens, c2, d.ends, RestTokens(docs'));
      EndLevel(tokens, c2, c3, d.ends, RestTokens(docs'));
      FinishesStep(tokens, c2);
      WinsMeans(tokens, Step(tokens, c2));
      BetweenHas(c3, false);
      RestWins(tokens, c3, docs', d.ends - k, false);
    }
  }

  lemma NoDocuments(docs: seq<Document>)
    requires docs == []
    ensures SupportedStream(docs)
  {
  }

  lemma BetweenOn(c: Config, first: bool)
    requires Between(c, first)
    ensures c.state != AtEnd
  {
  }

  lemma HeadLevel(tokens: seq<Token>, c: Config, c1: Config, d: Document, extra: nat, rest: seq<Token>)
    requires Stand(tokens, c.pos, EndTokens(extra) + (HeadTokens(d) + rest)) && Balance(tokens, c.pos) == 0
    requires c1.pos == c.pos + extra + |HeadTokens(d)| && c1.states == [AtDocumentEnd]
    ensures Balance(tokens, c1.pos) == 0 && AllLater(c1.states) && Spare(tokens, c1) == 0
  {
    hide *;
    EndTokensCount(extra);
    var ends, head := EndTokens(extra), HeadTokens(d);
    StandSplit(tokens, c.pos, ends, head + rest);
    StandSplit(tokens, c.pos + extra, head, rest);
    EndsEven(extra);
    HeadEven(d);
    var e := c.(pos := c.pos + extra);
    MissingLevel(tokens, c, e, ends);
    MissingLevel(tokens, e, c1, head);
  }

  lemma EndLevel(tokens: seq<Token>, c2: Config, c3: Config, ends: nat, rest: seq<Token>)
    requires Stand(tokens, c2.pos, EndTokens(ends) + rest) && Balance(tokens, c2.pos) == 0
    requires c3.pos == c2.pos + if ends > 0 then 1 else 0
    ensures Balance(tokens, c3.pos) == 0
  {
    hide Balance, Stand;
    if ends > 0 {
      assert EndTokens(ends) + rest == [Sign(DocumentEndToken)] + (EndTokens(ends - 1) + rest);
      StandOne(tokens, c2.pos, Sign(DocumentEndToken), EndTokens(ends - 1) + rest);
      BalanceOne(tokens, c2.pos);
    }
  }

  lemma RootWins(tokens: seq<Token>, c: Config, d: Document)
    requires c.state == (if d.explicit then AtDocumentContent else AtBlockNode) && c.states == [AtDocumentEnd]
    requires if d.explicit then Optional(d.root, true, false) else Derived(d.root, true, false)
    requires Stand(tokens, c.pos, Tokens(d.root)) && AfterDocument(tokens, c.pos + |Tokens(d.root)|)
    requires Finishes(tokens, c) && AllLater(c.states) && Spare(tokens, c) == 0
    ensures Supported(c.tags, d.root)
  {
    hide *;
    RootSteps(tokens, c, d);
    if d.root.Missing? {
      ReferenceSupported(c.tags, d.root);
    } else {
      FinishesStep(tokens, c);
      NodeWins(tokens, c, d.root, true, false);
    }
  }
}
