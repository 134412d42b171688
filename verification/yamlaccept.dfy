// Every derivation that the YAML parser can take is parsed into its events.

module YamlAccept {
  import opened YamlEvents
  import opened YamlSteps
  import opened YamlGrammar

  // ---------- runs ----------

  // From c the parser gives the events and comes to d.
  ghost predicate Runs(tokens: seq<Token>, c: Config, events: seq<Event>, d: Config)
    decreases |events|
  {
    if events == [] then c == d
    else var o := Step(tokens, c); o.Gives? && o.event == events[0] && Runs(tokens, o.next, events[1..], d)
  }

  // The same when the first event is that of o.
  ghost predicate GivesAll(tokens: seq<Token>, o: Outcome, events: seq<Event>, d: Config) {
    events != [] && o.Gives? && o.event == events[0] && Runs(tokens, o.next, events[1..], d)
  }

  lemma {:induction false} RunsJoin(tokens: seq<Token>, c: Config, a: seq<Event>, d: Config, b: seq<Event>, e: Config)
    requires Runs(tokens, c, a, d) && Runs(tokens, d, b, e)
    ensures Runs(tokens, c, a + b, e)
    decreases |a|
  {
    hide Step;
    if a == [] {
      assert a + b == b;
    } else {
      assert (a + b)[1..] == a[1..] + b;
      RunsJoin(tokens, Step(tokens, c).next, a[1..], d, b, e);
    }
  }

  lemma GivesJoin(tokens: seq<Token>, o: Outcome, a: seq<Event>, d: Config, b: seq<Event>, e: Config)
    requires GivesAll(tokens, o, a, d) && Runs(tokens, d, b, e)
    ensures GivesAll(tokens, o, a + b, e)
  {
    hide Step, Runs;
    assert (a + b)[1..] == a[1..] + b;
    RunsJoin(tokens, o.next, a[1..], d, b, e);
  }

  lemma GivesRuns(tokens: seq<Token>, c: Config, events: seq<Event>, d: Config)
    requires GivesAll(tokens, Step(tokens, c), events, d)
    ensures Runs(tokens, c, events, d)
  {
    hide Step;
  }

  lemma GivesOne(tokens: seq<Token>, o: Outcome)
    requires o.Gives?
    ensures GivesAll(tokens, o, [o.event], o.next)
  {
  }

  lemma RunsCons(tokens: seq<Token>, c: Config, o: Outcome, b: seq<Event>, e: Config)
    requires o.Gives? && Runs(tokens, o.next, b, e)
    ensures GivesAll(tokens, o, [o.event] + b, e)
    ensures Step(tokens, c) == o ==> Runs(tokens, c, [o.event] + b, e)
  {
    hide Step;
    assert ([o.event] + b)[1..] == b;
  }

  lemma RunsNone(tokens: seq<Token>, c: Config)
    ensures Runs(tokens, c, [], c)
  {
  }

  // ---------- where tokens stand ----------

  predicate Stand(tokens: seq<Token>, i: nat, ts: seq<Token>) {
    i + |ts| <= |tokens| && tokens[i..i + |ts|] == ts
  }

  lemma StandSplit(tokens: seq<Token>, i: nat, a: seq<Token>, b: seq<Token>)
    requires Stand(tokens, i, a + b)
    ensures Stand(tokens, i, a) && Stand(tokens, i + |a|, b)
  {
    assert tokens[i..i + |a|] == tokens[i..i + |a + b|][..|a|];
    assert tokens[i + |a|..i + |a + b|] == tokens[i..i + |a + b|][|a|..];
  }

  lemma StandOne(tokens: seq<Token>, i: nat, t: Token, b: seq<Token>)
    requires Stand(tokens, i, [t] + b)
    ensures i < |tokens| && tokens[i] == t && Stand(tokens, i + 1, b)
  {
    StandSplit(tokens, i, [t], b);
    assert tokens[i..i + 1][0] == t;
  }

  // ---------- the first token and the one after ----------

  predicate Begins(k: Kind, block: bool, indentless: bool) {
    || k == AliasToken || k == AnchorToken || k == TagToken || k == ScalarToken
    || k == FlowSequenceStartToken || k == FlowMappingStartToken
    || (block && (k == BlockSequenceStartToken || k == BlockMappingStartToken))
    || (indentless && k == BlockEntryToken)
  }

  // The token after a node.
  predicate Follows(tokens: seq<Token>, i: nat, indentless: bool) {
    i < |tokens| && if indentless then EndsBlockNode(tokens, i) else !Begins(tokens[i].kind, true, false)
  }

  lemma NodeBegins(n: Node, block: bool, indentless: bool)
    requires Derived(n, block, indentless)
    ensures !n.Missing? && Tokens(n) != [] && Begins(Tokens(n)[0].kind, block, indentless)
  {
    match n
    case Collection(shape, props, entries, trailing) =>
      if shape == Indentless { EntriesBegin(entries, trailing); }
    case _ =>
  }

  lemma EntriesBegin(entries: seq<Entry>, trailing: bool)
    requires entries != [] && DerivedAll(Indentless, entries, true)
    ensures var ts := EntryTokens(Indentless, entries, trailing, true); ts != [] && ts[0].kind == BlockEntryToken
  {
    assert DerivedOne(Indentless, entries[0], true);
  }

  // ---------- properties ----------

  // Where the properties end.
  predicate PastProps(tokens: seq<Token>, i: nat) {
    i < |tokens| && tokens[i].kind != AnchorToken && tokens[i].kind != TagToken && tokens[i].kind != AliasToken
  }

  lemma PropsRead(tokens: seq<Token>, i: nat, p: Props, tags: seq<TagDirective>)
    requires Stand(tokens, i, PropTokens(p)) && PastProps(tokens, i + |PropTokens(p)|)
    ensures !Is(tokens, i, AliasToken)
    ensures PropertiesAt(tokens, i, tags) == if TagIn(tags, p).Some? then Properties(AnchorOf(p), TagText(tags, p), i + |PropTokens(p)|) else NoProperties
  {
    hide TagOf, Meant;
    if p.tag.Some? { TagAgrees(tags, p.tag.value); }
    var ts := PropTokens(p);
    assert forall k :: 0 <= k < |ts| ==> tokens[i + k] == ts[k] by {
      forall k | 0 <= k < |ts| ensures tokens[i + k] == ts[k] { assert tokens[i..i + |ts|][k] == tokens[i + k]; }
    }
    if |ts| > 0 { assert tokens[i + 0] == ts[0]; }
    if |ts| > 1 { assert tokens[i + 1] == ts[1]; }
  }

  lemma PropsThen(tokens: seq<Token>, c: Config, p: Props, block: bool, indentless: bool)
    requires Stand(tokens, c.pos, PropTokens(p)) && PastProps(tokens, c.pos + |PropTokens(p)|)
    ensures NodeStep(tokens, c, block, indentless) ==
      if TagIn(c.tags, p).Some? then ContentStep(tokens, c.(pos := c.pos + |PropTokens(p)|), block, indentless, AnchorOf(p), TagText(c.tags, p)) else Fails
  {
    hide PropertiesAt, ContentStep, TagIn, PropTokens, TagText;
    PropsRead(tokens, c.pos, p, c.tags);
  }

  // ---------- nodes ----------

  // The top state goes on, n tokens later.
  function Followed(c: Config, n: nat): Config
    requires c.states != []
  {
    c.(pos := c.pos + n, state := c.states[|c.states| - 1], states := c.states[..|c.states| - 1])
  }

  function FirstState(s: Shape): PState {
    match s
    case BlockSequence => AtBlockSequenceFirstEntry
    case Indentless => AtIndentlessSequenceEntry
    case BlockMapping => AtBlockMappingFirstKey
    case FlowSequence => AtFlowSequenceFirstEntry
    case FlowMapping => AtFlowMappingFirstKey
  }

  function EntryState(s: Shape): PState {
    match s
    case BlockSequence => AtBlockSequenceEntry
    case Indentless => AtIndentlessSequenceEntry
    case BlockMapping => AtBlockMappingKey
    case FlowSequence => AtFlowSequenceEntry
    case FlowMapping => AtFlowMappingKey
  }

  // What the state of a collection does, and what it does past the separator.
  function Turn(tokens: seq<Token>, c: Config, s: Shape, first: bool): Outcome {
    match s
    case BlockSequence => BlockSequenceStep(tokens, c)
    case Indentless => IndentlessStep(tokens, c)
    case BlockMapping => BlockKeyStep(tokens, c)
    case FlowSequence => FlowSequenceStep(tokens, c, first)
    case FlowMapping => FlowKeyStep(tokens, c, first)
  }

  function Past(tokens: seq<Token>, c: Config, s: Shape): Outcome {
    match s
    case BlockSequence => BlockSequenceStep(tokens, c)
    case Indentless => IndentlessStep(tokens, c)
    case BlockMapping => BlockKeyStep(tokens, c)
    case FlowSequence => FlowItemStep(tokens, c)
    case FlowMapping => FlowEntryStep(tokens, c)
  }

  lemma StepTurns(tokens: seq<Token>, c: Config, s: Shape)
    ensures c.state == EntryState(s) ==> Step(tokens, c) == Turn(tokens, c, s, false)
    ensures c.state == FirstState(s) ==> Step(tokens, c) == Turn(tokens, Entered(c, s != Indentless), s, true)
  {
    hide BlockSequenceStep, IndentlessStep, BlockKeyStep, FlowSequenceStep, FlowKeyStep;
  }

  // The end of a collection, n tokens later.
  function Ended(c: Config, s: Shape, n: nat): Config
    requires c.states != [] && (s != Indentless ==> c.marks > 0)
  {
    Followed(c, n).(marks := if s == Indentless then c.marks else c.marks - 1)
  }

  function OpeningKind(s: Shape): Kind {
    if s == Indentless then BlockEntryToken else Opening(s)[0].kind
  }

  lemma ContentOpens(tokens: seq<Token>, d: Config, s: Shape, block: bool, indentless: bool, anchor: string, tag: string)
    requires Is(tokens, d.pos, OpeningKind(s)) && (s == Indentless ==> indentless) && (s == BlockSequence || s == BlockMapping ==> block)
    ensures ContentStep(tokens, d, block, indentless, anchor, tag) == Gives(StartOf(s, anchor, tag), d.(state := FirstState(s)))
  {
  }

  // An optional node, and then q.
  function Slot(tokens: seq<Token>, d: Config, n: Node, q: PState, block: bool, indentless: bool): Outcome {
    if n.Missing? then ThenEmpty(d, q) else ThenNode(tokens, d, q, block, indentless)
  }

  lemma {:induction false} NodeRuns(tokens: seq<Token>, c: Config, n: Node, block: bool, indentless: bool)
    requires Derived(n, block, indentless) && Supported(c.tags, n) && c.states != []
    requires Stand(tokens, c.pos, Tokens(n)) && Follows(tokens, c.pos + |Tokens(n)|, indentless)
    ensures GivesAll(tokens, NodeStep(tokens, c, block, indentless), Events(c.tags, n), Followed(c, |Tokens(n)|))
    decreases n, 1
  {
    match n
    case Reference(name) => ReferenceRuns(tokens, c, n, block, indentless);
    case Leaf(props, text) => LeafRuns(tokens, c, n, block, indentless);
    case Collection(shape, props, entries, trailing) => CollectionRuns(tokens, c, n, block, indentless);
  }

  lemma ReferenceRuns(tokens: seq<Token>, c: Config, n: Node, block: bool, indentless: bool)
    requires n.Reference? && c.states != [] && Stand(tokens, c.pos, Tokens(n))
    ensures GivesAll(tokens, NodeStep(tokens, c, block, indentless), Events(c.tags, n), Followed(c, |Tokens(n)|))
  {
    StandOne(tokens, c.pos, Tokens(n)[0], []);
  }

  lemma LeafRuns(tokens: seq<Token>, c: Config, n: Node, block: bool, indentless: bool)
    requires n.Leaf? && Derived(n, block, indentless) && Supported(c.tags, n) && c.states != []
    requires Stand(tokens, c.pos, Tokens(n)) && Follows(tokens, c.pos + |Tokens(n)|, indentless)
    ensures GivesAll(tokens, NodeStep(tokens, c, block, indentless), Events(c.tags, n), Followed(c, |Tokens(n)|))
  {
    hide *;
    var ts := PropTokens(n.props);
    LeafStands(tokens, c.pos, n, block, indentless);
    PropsThen(tokens, c, n.props, block, indentless);
    LeafContent(tokens, c, c.(pos := c.pos + |ts|), n, block, indentless);
    GivesOne(tokens, NodeStep(tokens, c, block, indentless));
  }

  lemma LeafStands(tokens: seq<Token>, i: nat, n: Node, block: bool, indentless: bool)
    requires n.Leaf? && Stand(tokens, i, Tokens(n)) && Follows(tokens, i + |Tokens(n)|, indentless)
    ensures var j := i + |PropTokens(n.props)|;
      && Stand(tokens, i, PropTokens(n.props)) && PastProps(tokens, j) && j < |tokens|
      && (if n.text.Some? then tokens[j] == TextToken(n.text.value) else Follows(tokens, j, indentless))
      && |Tokens(n)| == |PropTokens(n.props)| + if n.text.Some? then 1 else 0
  {
    hide PropTokens, Stand;
    var ts := PropTokens(n.props);
    if n.text.Some? {
      StandSplit(tokens, i, ts, [TextToken(n.text.value)]);
      StandOne(tokens, i + |ts|, TextToken(n.text.value), []);
    } else {
      assert ts + [] == ts;
    }
  }

  lemma LeafContent(tokens: seq<Token>, c: Config, d: Config, n: Node, block: bool, indentless: bool)
    requires n.Leaf? && Supported(c.tags, n) && c.states != []
    requires d == c.(pos := c.pos + |PropTokens(n.props)|) && d.pos < |tokens|
    requires if n.text.Some? then tokens[d.pos] == TextToken(n.text.value) else Follows(tokens, d.pos, indentless)
    ensures TagIn(c.tags, n.props).Some? && Events(c.tags, n) == [LeafEvent(c.tags, n.props, n.text)]
    ensures ContentStep(tokens, d, block, indentless, AnchorOf(n.props), TagText(c.tags, n.props))
      == Gives(LeafEvent(c.tags, n.props, n.text), Followed(c, |Tokens(n)|))
  {
    hide PropTokens, TagIn, TagText, AnchorOf;
  }

  // A collection after its properties.
  lemma {:induction false} CollectionRuns(tokens: seq<Token>, c: Config, n: Node, block: bool, indentless: bool)
    requires n.Collection? && Derived(n, block, indentless) && Supported(c.tags, n) && c.states != []
    requires Stand(tokens, c.pos, Tokens(n)) && Follows(tokens, c.pos + |Tokens(n)|, indentless)
    ensures GivesAll(tokens, NodeStep(tokens, c, block, indentless), Events(c.tags, n), Followed(c, |Tokens(n)|))
    decreases n, 0
  {
    hide *;
    var s := n.shape;
    CollectionMeans(c.tags, n, block, indentless);
    var d := Inside(tokens, c, n, block, indentless);
    var start := NodeStep(tokens, c, block, indentless);
    EnteredAt(start.next, s);
    EntriesRun(tokens, d, s, n.entries, n.trailing, true, true);
    StepTurns(tokens, start.next, s);
    var events := EntryEvents(c.tags, s, n.entries) + [EndOf(s)];
    var end := Followed(c, |Tokens(n)|);
    EndedIs(d, c, s, |EntryTokens(s, n.entries, n.trailing, true) + Closing(s)|, |Tokens(n)|);
    GivesRuns(tokens, start.next, events, end);
    GivesOne(tokens, start);
    GivesJoin(tokens, start, [start.event], start.next, events, end);
  }

  lemma CollectionMeans(tags: seq<TagDirective>, n: Node, block: bool, indentless: bool)
    requires n.Collection? && Derived(n, block, indentless) && Supported(tags, n)
    ensures TagIn(tags, n.props).Some? && DerivedAll(n.shape, n.entries, true) && SupportedAll(tags, n.shape, n.entries, n.trailing)
    ensures n.trailing ==> IsFlow(n.shape) && n.entries != []
    ensures Events(tags, n) == [StartOf(n.shape, AnchorOf(n.props), TagText(tags, n.props))] + (EntryEvents(tags, n.shape, n.entries) + [EndOf(n.shape)])
    ensures |Tokens(n)| == |PropTokens(n.props)| + |Opening(n.shape)| + |EntryTokens(n.shape, n.entries, n.trailing, true) + Closing(n.shape)|
  {
    hide DerivedAll, SupportedAll, EntryEvents, EntryTokens, PropTokens;
  }

  // The collection entered at d ends like a node that began at c.
  lemma EndedIs(d: Config, c: Config, s: Shape, k: nat, n: nat)
    requires c.states != [] && d.states == c.states && d.tags == c.tags && d.marks == c.marks + (if s == Indentless then 0 else 1)
    requires d.pos + k == c.pos + n
    ensures Ended(d, s, k) == Followed(c, n)
  {
  }

  // The start event of a collection, and the state of the parser inside.
  lemma Inside(tokens: seq<Token>, c: Config, n: Node, block: bool, indentless: bool) returns (d: Config)
    requires n.Collection? && Derived(n, block, indentless) && TagIn(c.tags, n.props).Some? && c.states != []
    requires Stand(tokens, c.pos, Tokens(n)) && Follows(tokens, c.pos + |Tokens(n)|, indentless)
    ensures var s, o := n.shape, NodeStep(tokens, c, block, indentless);
      && o == Gives(StartOf(s, AnchorOf(n.props), TagText(c.tags, n.props)), c.(pos := c.pos + |PropTokens(n.props)|, state := FirstState(s)))
      && d == Entered(o.next, s != Indentless) && d.pos == c.pos + |PropTokens(n.props)| + |Opening(s)|
      && Stand(tokens, d.pos, EntryTokens(s, n.entries, n.trailing, true) + Closing(s))
      && (s == Indentless ==> Follows(tokens, d.pos + |EntryTokens(s, n.entries, n.trailing, true)|, true))
  {
    hide *;
    var s := n.shape;
    var i := c.pos + |PropTokens(n.props)|;
    InsideStands(tokens, c.pos, n, block, indentless);
    PropsThen(tokens, c, n.props, block, indentless);
    ContentOpens(tokens, c.(pos := i), s, block, indentless, AnchorOf(n.props), TagText(c.tags, n.props));
    d := Entered(c.(pos := i, state := FirstState(s)), s != Indentless);
    EnteredAt(c.(pos := i, state := FirstState(s)), s);
  }

  lemma EnteredAt(c: Config, s: Shape)
    ensures Entered(c, s != Indentless) == if s == Indentless then c else c.(pos := c.pos + 1, marks := c.marks + 1)
    ensures |Opening(s)| == if s == Indentless then 0 else 1
  {
  }

  lemma InsideStands(tokens: seq<Token>, i: nat, n: Node, block: bool, indentless: bool)
    requires n.Collection? && Derived(n, block, indentless)
    requires Stand(tokens, i, Tokens(n)) && Follows(tokens, i + |Tokens(n)|, indentless)
    ensures var s, k := n.shape, i + |PropTokens(n.props)|;
      && Stand(tokens, i, PropTokens(n.props)) && PastProps(tokens, k) && Is(tokens, k, OpeningKind(s))
      && (s == Indentless ==> indentless) && (s == BlockSequence || s == BlockMapping ==> block)
      && Stand(tokens, k + |Opening(s)|, EntryTokens(s, n.entries, n.trailing, true) + Closing(s))
      && (s == Indentless ==> Follows(tokens, k + |Opening(s)| + |EntryTokens(s, n.entries, n.trailing, true)|, true))
  {
    hide *;
    var s, ts := n.shape, PropTokens(n.props);
    CollectionTokens(n);
    StandSplit(tokens, i, ts, Opening(s) + (EntryTokens(s, n.entries, n.trailing, true) + Closing(s)));
    DerivedMeans(n, block, indentless);
    if s == Indentless {
      IndentlessStands(tokens, i + |ts|, n.entries, n.trailing);
    } else {
      OpenedStands(tokens, i + |ts|, s, EntryTokens(s, n.entries, n.trailing, true) + Closing(s));
    }
  }

  lemma OpenedStands(tokens: seq<Token>, i: nat, s: Shape, inner: seq<Token>)
    requires s != Indentless && Stand(tokens, i, Opening(s) + inner)
    ensures PastProps(tokens, i) && Is(tokens, i, OpeningKind(s)) && Stand(tokens, i + |Opening(s)|, inner)
  {
    hide *;
    OpeningIs(s);
    StandOne(tokens, i, Opening(s)[0], inner);
    OpensPast(tokens, i, s);
  }

  lemma IndentlessStands(tokens: seq<Token>, i: nat, entries: seq<Entry>, trailing: bool)
    requires entries != [] && DerivedAll(Indentless, entries, true)
    requires Stand(tokens, i, Opening(Indentless) + (EntryTokens(Indentless, entries, trailing, true) + Closing(Indentless)))
    ensures PastProps(tokens, i) && Is(tokens, i, OpeningKind(Indentless)) && Opening(Indentless) == [] && Closing(Indentless) == []
    ensures Stand(tokens, i, EntryTokens(Indentless, entries, trailing, true) + Closing(Indentless))
  {
    hide *;
    OpeningIs(Indentless);
    NoClosing();
    EntriesBegin(entries, trailing);
    var ts := EntryTokens(Indentless, entries, trailing, true);
    assert [] + (ts + []) == ts + [] == [ts[0]] + ts[1..];
    StandOne(tokens, i, ts[0], ts[1..]);
    OpensPast(tokens, i, Indentless);
  }

  lemma CollectionTokens(n: Node)
    requires n.Collection?
    ensures Tokens(n) == PropTokens(n.props) + (Opening(n.shape) + (EntryTokens(n.shape, n.entries, n.trailing, true) + Closing(n.shape)))
  {
    hide PropTokens, Opening, EntryTokens, Closing;
  }

  lemma OpeningIs(s: Shape)
    ensures if s == Indentless then Opening(s) == [] && OpeningKind(s) == BlockEntryToken else |Opening(s)| == 1 && Opening(s)[0].kind == OpeningKind(s)
    ensures Opening(s) == if s == Indentless then [] else [Opening(s)[0]]
  {
  }

  lemma OpensPast(tokens: seq<Token>, i: nat, s: Shape)
    requires i < |tokens| && tokens[i].kind == OpeningKind(s)
    ensures PastProps(tokens, i) && Is(tokens, i, OpeningKind(s))
  {
  }

  lemma NoClosing()
    ensures Closing(Indentless) == []
  {
  }

  lemma DerivedMeans(n: Node, block: bool, indentless: bool)
    requires n.Collection? && Derived(n, block, indentless)
    ensures DerivedAll(n.shape, n.entries, true)
    ensures n.shape == Indentless ==> indentless && n.entries != []
    ensures n.shape == BlockSequence || n.shape == BlockMapping ==> block
  {
  }

  // ---------- entries ----------

  // The token after an entry.
  predicate AfterEntry(tokens: seq<Token>, i: nat, s: Shape, keyless: bool) {
    i < |tokens| && match s
    case BlockSequence => Is(tokens, i, BlockEntryToken) || Is(tokens, i, BlockEndToken)
    case Indentless => Is(tokens, i, BlockEntryToken) || EndsBlockNode(tokens, i)
    case BlockMapping => EndsBlockNode(tokens, i) && (Is(tokens, i, ValueToken) ==> keyless)
    case FlowSequence => Is(tokens, i, FlowEntryToken) || Is(tokens, i, FlowSequenceEndToken)
    case FlowMapping => Is(tokens, i, FlowEntryToken) || Is(tokens, i, FlowMappingEndToken)
  }

  lemma AfterOne(tokens: seq<Token>, i: nat, s: Shape, rest: seq<Entry>, trailing: bool, keyless: bool)
    requires DerivedAll(s, rest, keyless) && (trailing ==> IsFlow(s))
    requires Stand(tokens, i, EntryTokens(s, rest, trailing, false) + Closing(s))
    requires s == Indentless ==> Follows(tokens, i + |EntryTokens(s, rest, trailing, false)|, true)
    ensures AfterEntry(tokens, i, s, keyless)
  {
    hide DerivedAll;
    var ts := EntryTokens(s, rest, trailing, false) + Closing(s);
    if ts != [] {
      assert ts == [ts[0]] + ts[1..];
      StandOne(tokens, i, ts[0], ts[1..]);
    }
    if rest != [] {
      RestBegins(s, rest, trailing, keyless);
    }
  }

  lemma RestBegins(s: Shape, rest: seq<Entry>, trailing: bool, keyless: bool)
    requires rest != [] && DerivedAll(s, rest, keyless)
    ensures s == BlockMapping ==> rest[0].Pair? && (!rest[0].hasKey ==> keyless)
    ensures var ts := EntryTokens(s, rest, trailing, false);
      ts != [] && ts[0].kind == if IsFlow(s) then FlowEntryToken else if s != BlockMapping then BlockEntryToken else if rest[0].hasKey then KeyToken else ValueToken
  {
    assert DerivedOne(s, rest[0], keyless);
  }

  predicate Separates(k: Kind) {
    k == FlowEntryToken || k == FlowSequenceEndToken || k == FlowMappingEndToken
  }

  // The first token of an entry.
  lemma OneBegins(s: Shape, e: Entry, keyless: bool)
    requires DerivedOne(s, e, keyless)
    ensures OneTokens(s, e) != [] && !Separates(OneTokens(s, e)[0].kind)
  {
    hide *;
    DerivedSays(s, e, keyless);
    if e.Item? && IsFlow(s) {
      NodeBegins(e.node, false, false);
      BeginsNoSeparator(Tokens(e.node)[0].kind);
    }
    FirstOfOne(s, e);
    SignsNoSeparator();
  }

  lemma DerivedSays(s: Shape, e: Entry, keyless: bool)
    requires DerivedOne(s, e, keyless)
    ensures if e.Pair? then e.hasKey || e.hasValue else IsFlow(s) ==> Derived(e.node, false, false)
  {
    hide Derived, Optional;
  }

  lemma FirstOfOne(s: Shape, e: Entry)
    requires if e.Pair? then e.hasKey || e.hasValue else IsFlow(s) ==> Tokens(e.node) != []
    ensures OneTokens(s, e) != []
    ensures OneTokens(s, e)[0] == if e.Pair? then Sign(if e.hasKey then KeyToken else ValueToken) else if IsFlow(s) then Tokens(e.node)[0] else Sign(BlockEntryToken)
  {
    hide Tokens, IsFlow, Sign;
  }

  lemma SignsNoSeparator()
    ensures !Separates(Sign(KeyToken).kind) && !Separates(Sign(ValueToken).kind) && !Separates(Sign(BlockEntryToken).kind)
  {
  }

  lemma BeginsNoSeparator(k: Kind)
    requires Begins(k, false, false)
    ensures !Separates(k)
  {
  }

  // In a flow collection the separator is passed.
  lemma TurnPasts(tokens: seq<Token>, c: Config, s: Shape, first: bool, ts: seq<Token>)
    requires var separator := if IsFlow(s) && !first then [Sign(FlowEntryToken)] else []; Stand(tokens, c.pos, separator + ts)
    requires ts != [] && !Separates(ts[0].kind)
    ensures var k := if IsFlow(s) && !first then 1 else 0;
      Turn(tokens, c, s, first) == Past(tokens, c.(pos := c.pos + k), s) && Stand(tokens, c.pos + k, ts)
  {
    hide BlockSequenceStep, IndentlessStep, BlockKeyStep, FlowItemStep, FlowEntryStep;
    var separator := if IsFlow(s) && !first then [Sign(FlowEntryToken)] else [];
    StandSplit(tokens, c.pos, separator, ts);
    assert ts == [ts[0]] + ts[1..];
    StandOne(tokens, c.pos + |separator|, ts[0], ts[1..]);
    if separator != [] { StandOne(tokens, c.pos, separator[0], ts); }
  }

  // The end of a collection, after a last separator if there is one.
  lemma TurnEnds(tokens: seq<Token>, c: Config, s: Shape, first: bool, separator: seq<Token>)
    requires c.states != [] && (s != Indentless ==> c.marks > 0)
    requires separator == [] || (IsFlow(s) && !first && separator == [Sign(FlowEntryToken)])
    requires Stand(tokens, c.pos, separator + Closing(s)) && (s == Indentless ==> Follows(tokens, c.pos, true))
    ensures Turn(tokens, c, s, first) == Gives(EndOf(s), Ended(c, s, |separator| + |Closing(s)|))
  {
    hide Turn, Stand, Followed;
    StandSplit(tokens, c.pos, separator, Closing(s));
    if s != Indentless { StandOne(tokens, c.pos + |separator|, Closing(s)[0], []); }
    if separator != [] { StandOne(tokens, c.pos, separator[0], Closing(s)); }
    EndSteps(tokens, c, s, first, separator != []);
  }

  lemma EndSteps(tokens: seq<Token>, c: Config, s: Shape, first: bool, separated: bool)
    requires c.states != [] && (s != Indentless ==> c.marks > 0)
    requires if separated then IsFlow(s) && !first && Is(tokens, c.pos, FlowEntryToken) else s == Indentless ==> EndsBlockNode(tokens, c.pos)
    requires s != Indentless ==> Is(tokens, c.pos + (if separated then 1 else 0), Closing(s)[0].kind)
    ensures Turn(tokens, c, s, first) == Gives(EndOf(s), Ended(c, s, (if separated then 1 else 0) + if s == Indentless then 0 else 1))
  {
    hide ThenNode, ThenEmpty, FlowAfterKeyStep;
  }

  // A pair without a key in a flow sequence that loses the separator after it.
  predicate Losing(s: Shape, e: Entry) {
    s == FlowSequence && e.Pair? && e.key.Missing? && !e.hasValue
  }

  lemma {:induction false} EntriesRun(tokens: seq<Token>, c: Config, s: Shape, entries: seq<Entry>, trailing: bool, first: bool, keyless: bool)
    requires c.states != [] && (s != Indentless ==> c.marks > 0)
    requires DerivedAll(s, entries, keyless) && SupportedAll(c.tags, s, entries, trailing) && (trailing ==> IsFlow(s) && !(first && entries == []))
    requires Stand(tokens, c.pos, EntryTokens(s, entries, trailing, first) + Closing(s))
    requires s == Indentless ==> Follows(tokens, c.pos + |EntryTokens(s, entries, trailing, first)|, true)
    ensures GivesAll(tokens, Turn(tokens, c, s, first), EntryEvents(c.tags, s, entries) + [EndOf(s)],
      Ended(c, s, |EntryTokens(s, entries, trailing, first) + Closing(s)|))
    decreases entries, 1
  {
    hide *;
    var ts := EntryTokens(s, entries, trailing, first);
    if entries == [] {
      NoEntries(c.tags, s, trailing, first);
      TurnEnds(tokens, c, s, first, ts);
      GivesOne(tokens, Turn(tokens, c, s, first));
    } else {
      var e, rest := entries[0], EntryTokens(s, entries[1..], trailing, false) + Closing(s);
      EntriesAre(c.tags, s, entries, trailing, keyless);
      EntryTokensAre(s, entries, trailing, first);
      var d := PastSeparator(tokens, c, s, e, rest, first, keyless);
      var d';
      if Losing(s, e) {
        d' := LosingRuns(tokens, d, s, entries, trailing, keyless);
        EndedSame(c, d, s, |ts + Closing(s)|, 3);
      } else {
        d' := d.(pos := d.pos + |OneTokens(s, e)|, state := EntryState(s));
        AfterOne(tokens, d'.pos, s, entries[1..], trailing, Complete(e));
        OneRuns(tokens, d, s, e, keyless, |entries| == 1 && trailing);
        EntriesRun(tokens, d', s, entries[1..], trailing, false, Complete(e));
        EndedSame(c, d', s, |ts + Closing(s)|, |rest|);
      }
      var events := EntryEvents(c.tags, s, entries[1..]) + [EndOf(s)];
      var end := Ended(c, s, |ts + Closing(s)|);
      StepTurns(tokens, d', s);
      GivesRuns(tokens, d', events, end);
      GivesJoin(tokens, Turn(tokens, c, s, first), OneEvents(c.tags, s, e), d', events, end);
    }
  }

  lemma NoEntries(tags: seq<TagDirective>, s: Shape, trailing: bool, first: bool)
    requires trailing ==> IsFlow(s) && !first
    ensures EntryEvents(tags, s, []) + [EndOf(s)] == [EndOf(s)]
    ensures EntryTokens(s, [], trailing, first) == if trailing then [Sign(FlowEntryToken)] else []
    ensures s == Indentless ==> !trailing
  {
  }

  lemma EntriesAre(tags: seq<TagDirective>, s: Shape, entries: seq<Entry>, trailing: bool, keyless: bool)
    requires entries != [] && DerivedAll(s, entries, keyless) && SupportedAll(tags, s, entries, trailing)
    ensures DerivedOne(s, entries[0], keyless) && DerivedAll(s, entries[1..], Complete(entries[0]))
    ensures SupportedOne(tags, s, entries[0], |entries| == 1 && trailing) && SupportedAll(tags, s, entries[1..], trailing)
    ensures EntryEvents(tags, s, entries) + [EndOf(s)] == OneEvents(tags, s, entries[0]) + (EntryEvents(tags, s, entries[1..]) + [EndOf(s)])
  {
    hide DerivedOne, SupportedOne, OneEvents, EndOf;
  }

  lemma EndedSame(c: Config, d: Config, s: Shape, n: nat, k: nat)
    requires c.states != [] && (s != Indentless ==> c.marks > 0)
    requires d.states == c.states && d.marks == c.marks && d.tags == c.tags && d.pos + k == c.pos + n
    ensures Ended(d, s, k) == Ended(c, s, n)
  {
  }

  lemma EntryTokensAre(s: Shape, entries: seq<Entry>, trailing: bool, first: bool)
    requires entries != []
    ensures var separator := if IsFlow(s) && !first then [Sign(FlowEntryToken)] else [];
      var one, rest := OneTokens(s, entries[0]), EntryTokens(s, entries[1..], trailing, false);
      && EntryTokens(s, entries, trailing, first) + Closing(s) == separator + (one + (rest + Closing(s)))
      && |EntryTokens(s, entries, trailing, first)| == |separator| + |one| + |rest|
  {
    hide *;
    var separator := if IsFlow(s) && !first then [Sign(FlowEntryToken)] else [];
    EntryTokensMean(s, entries, trailing, first);
    Regrouped(separator, OneTokens(s, entries[0]), EntryTokens(s, entries[1..], trailing, false), Closing(s));
  }

  lemma EntryTokensMean(s: Shape, entries: seq<Entry>, trailing: bool, first: bool)
    requires entries != []
    ensures EntryTokens(s, entries, trailing, first)
      == (if IsFlow(s) && !first then [Sign(FlowEntryToken)] else []) + (OneTokens(s, entries[0]) + EntryTokens(s, entries[1..], trailing, false))
  {
    hide OneTokens, IsFlow, Sign;
  }

  lemma Regrouped<T>(a: seq<T>, b: seq<T>, c: seq<T>, d: seq<T>)
    ensures (a + (b + c)) + d == a + (b + (c + d))
  {
  }

  lemma PastSeparator(tokens: seq<Token>, c: Config, s: Shape, e: Entry, rest: seq<Token>, first: bool, keyless: bool) returns (d: Config)
    requires DerivedOne(s, e, keyless)
    requires Stand(tokens, c.pos, (if IsFlow(s) && !first then [Sign(FlowEntryToken)] else []) + (OneTokens(s, e) + rest))
    ensures d == c.(pos := c.pos + if IsFlow(s) && !first then 1 else 0)
    ensures Turn(tokens, c, s, first) == Past(tokens, d, s)
    ensures Stand(tokens, d.pos, OneTokens(s, e)) && Stand(tokens, d.pos + |OneTokens(s, e)|, rest)
  {
    hide OneTokens, DerivedOne, Turn, Past;
    OneBegins(s, e, keyless);
    TurnPasts(tokens, c, s, first, OneTokens(s, e) + rest);
    d := c.(pos := c.pos + if IsFlow(s) && !first then 1 else 0);
    StandSplit(tokens, d.pos, OneTokens(s, e), rest);
  }

  lemma LosingMeans(tags: seq<TagDirective>, s: Shape, entries: seq<Entry>, trailing: bool, keyless: bool)
    requires entries != [] && Losing(s, entries[0]) && DerivedAll(s, entries, keyless) && SupportedAll(tags, s, entries, trailing)
    ensures entries == [Pair(true, Missing, false, Missing)] && trailing && s == FlowSequence
  {
    assert DerivedOne(s, entries[0], keyless) && SupportedOne(tags, s, entries[0], |entries| == 1 && trailing);
  }

  // The separator after the pair is taken for the missing key; the end of the
  // sequence comes all the same.
  lemma LosingRuns(tokens: seq<Token>, d: Config, s: Shape, entries: seq<Entry>, trailing: bool, keyless: bool) returns (d': Config)
    requires d.states != [] && (s != Indentless ==> d.marks > 0) && entries != [] && Losing(s, entries[0])
    requires DerivedAll(s, entries, keyless) && SupportedAll(d.tags, s, entries, trailing)
    requires Stand(tokens, d.pos, OneTokens(s, entries[0]))
    requires Stand(tokens, d.pos + |OneTokens(s, entries[0])|, EntryTokens(s, entries[1..], trailing, false) + Closing(s))
    ensures d' == d.(pos := d.pos + 2, state := EntryState(s))
    ensures GivesAll(tokens, Past(tokens, d, s), OneEvents(d.tags, s, entries[0]), d')
    ensures GivesAll(tokens, Turn(tokens, d', s, false), EntryEvents(d.tags, s, entries[1..]) + [EndOf(s)], Ended(d, s, 3))
    ensures |OneTokens(s, entries[0])| == 1 && |EntryTokens(s, entries[1..], trailing, false) + Closing(s)| == 2
  {
    hide *;
    LosingMeans(d.tags, s, entries, trailing, keyless);
    LosingIs(d.tags, entries);
    StandOne(tokens, d.pos, Sign(KeyToken), []);
    StandOne(tokens, d.pos + 1, Sign(FlowEntryToken), Closing(s));
    StandOne(tokens, d.pos + 2, Sign(FlowSequenceEndToken), []);
    LosingKinds(tokens, d.pos);
    d' := d.(pos := d.pos + 2, state := EntryState(s));
    KeylessPairRuns(tokens, d);
    PastIsItem(tokens, d, s);
    TurnEnds(tokens, d', s, false, []);
    EndedSame(d', d, s, 1, 3);
    GivesOne(tokens, Turn(tokens, d', s, false));
  }

  lemma LosingIs(tags: seq<TagDirective>, entries: seq<Entry>)
    requires entries == [Pair(true, Missing, false, Missing)]
    ensures var s := FlowSequence;
      && OneTokens(s, entries[0]) == [Sign(KeyToken)] + [] && Closing(s) == [Sign(FlowSequenceEndToken)] + [] && [] + Closing(s) == Closing(s)
      && EntryTokens(s, entries[1..], true, false) + Closing(s) == [Sign(FlowEntryToken)] + Closing(s)
      && OneEvents(tags, s, entries[0]) == [MappingStart("", "", true, true)] + ([EMPTY] + [EMPTY] + [MappingEnd])
      && EntryEvents(tags, s, entries[1..]) + [EndOf(s)] == [EndOf(s)]
      && EntryState(s) == AtFlowSequenceEntry
  {
  }

  lemma LosingKinds(tokens: seq<Token>, i: nat)
    requires i + 2 < |tokens| && tokens[i] == Sign(KeyToken) && tokens[i + 1] == Sign(FlowEntryToken) && tokens[i + 2] == Sign(FlowSequenceEndToken)
    ensures Is(tokens, i, KeyToken) && Is(tokens, i + 1, FlowEntryToken) && Is(tokens, i + 2, FlowSequenceEndToken)
  {
  }

  // A pair of nothing and nothing, with the token after the key indicator taken.
  lemma KeylessPairRuns(tokens: seq<Token>, d: Config)
    requires Is(tokens, d.pos, KeyToken) && (Is(tokens, d.pos + 1, ValueToken) || Is(tokens, d.pos + 1, FlowEntryToken))
    requires Is(tokens, d.pos + 2, FlowEntryToken) || Is(tokens, d.pos + 2, FlowSequenceEndToken)
    ensures GivesAll(tokens, FlowItemStep(tokens, d), [MappingStart("", "", true, true)] + ([EMPTY] + [EMPTY] + [MappingEnd]),
      d.(pos := d.pos + 2, state := AtFlowSequenceEntry))
  {
    hide *;
    var c1 := d.(pos := d.pos + 1, state := AtFlowSequenceEntryMappingKey);
    var c2 := d.(pos := d.pos + 2, state := AtFlowSequenceEntryMappingValue);
    var c3 := d.(pos := d.pos + 2, state := AtFlowSequenceEntryMappingEnd);
    var c4 := d.(pos := d.pos + 2, state := AtFlowSequenceEntry);
    KeylessPairSteps(tokens, d, c1, c2, c3, c4);
    RunsNone(tokens, c4);
    RunsCons(tokens, c3, Gives(MappingEnd, c4), [], c4);
    RunsCons(tokens, c2, Gives(EMPTY, c3), [MappingEnd] + [], c4);
    RunsCons(tokens, c1, Gives(EMPTY, c2), [EMPTY] + ([MappingEnd] + []), c4);
    var events := [EMPTY] + ([EMPTY] + ([MappingEnd] + []));
    RunsCons(tokens, d, Gives(MappingStart("", "", true, true), c1), events, c4);
    assert events == [EMPTY] + [EMPTY] + [MappingEnd];
  }

  lemma KeylessPairSteps(tokens: seq<Token>, d: Config, c1: Config, c2: Config, c3: Config, c4: Config)
    requires Is(tokens, d.pos, KeyToken) && (Is(tokens, d.pos + 1, ValueToken) || Is(tokens, d.pos + 1, FlowEntryToken))
    requires Is(tokens, d.pos + 2, FlowEntryToken) || Is(tokens, d.pos + 2, FlowSequenceEndToken)
    requires c1 == d.(pos := d.pos + 1, state := AtFlowSequenceEntryMappingKey) && c2 == c1.(pos := d.pos + 2, state := AtFlowSequenceEntryMappingValue)
    requires c3 == c2.(state := AtFlowSequenceEntryMappingEnd) && c4 == c3.(state := AtFlowSequenceEntry)
    ensures FlowItemStep(tokens, d) == Gives(MappingStart("", "", true, true), c1)
    ensures Step(tokens, c1) == Gives(EMPTY, c2) && Step(tokens, c2) == Gives(EMPTY, c3) && Step(tokens, c3) == Gives(MappingEnd, c4)
  {
  }

  // ---------- one entry ----------

  lemma {:induction false} SlotRuns(tokens: seq<Token>, d: Config, n: Node, q: PState, block: bool, indentless: bool)
    requires Optional(n, block, indentless) && Supported(d.tags, n)
    requires Stand(tokens, d.pos, Tokens(n)) && Follows(tokens, d.pos + |Tokens(n)|, indentless)
    ensures GivesAll(tokens, Slot(tokens, d, n, q, block, indentless), Events(d.tags, n), d.(pos := d.pos + |Tokens(n)|, state := q))
    decreases n, 2
  {
    hide *;
    if n.Missing? {
      MissingSlot(tokens, d, n, q, block, indentless);
      RunsNone(tokens, d.(state := q));
      RunsCons(tokens, d, Gives(EMPTY, d.(state := q)), [], d.(state := q));
    } else {
      var e := d.(states := d.states + [q]);
      PresentSlot(tokens, d, n, q, block, indentless);
      NodeRuns(tokens, e, n, block, indentless);
    }
  }

  lemma MissingSlot(tokens: seq<Token>, d: Config, n: Node, q: PState, block: bool, indentless: bool)
    requires n.Missing?
    ensures Slot(tokens, d, n, q, block, indentless) == Gives(EMPTY, d.(state := q)) && Events(d.tags, n) == [EMPTY] + [] && Tokens(n) == []
  {
  }

  lemma PresentSlot(tokens: seq<Token>, d: Config, n: Node, q: PState, block: bool, indentless: bool)
    requires Optional(n, block, indentless) && !n.Missing?
    ensures var e := d.(states := d.states + [q]);
      && Derived(n, block, indentless) && Slot(tokens, d, n, q, block, indentless) == NodeStep(tokens, e, block, indentless)
      && Followed(e, |Tokens(n)|) == d.(pos := d.pos + |Tokens(n)|, state := q)
  {
    hide Derived, NodeStep, Tokens;
    assert (d.states + [q])[..|d.states|] == d.states;
  }

  lemma {:induction false} OneRuns(tokens: seq<Token>, c: Config, s: Shape, e: Entry, keyless: bool, lastSeparated: bool)
    requires DerivedOne(s, e, keyless) && SupportedOne(c.tags, s, e, lastSeparated) && !Losing(s, e)
    requires Stand(tokens, c.pos, OneTokens(s, e)) && AfterEntry(tokens, c.pos + |OneTokens(s, e)|, s, Complete(e))
    ensures GivesAll(tokens, Past(tokens, c, s), OneEvents(c.tags, s, e), c.(pos := c.pos + |OneTokens(s, e)|, state := EntryState(s)))
    decreases e
  {
    hide *;
    EntryKinds(s, e, keyless);
    if s == BlockSequence || s == Indentless {
      BlockItemRuns(tokens, c, s, e, keyless, lastSeparated);
    } else if e.Item? && s == FlowSequence {
      FlowItemRuns(tokens, c, s, e, keyless, lastSeparated);
    } else if e.Item? {
      FlowKeyRuns(tokens, c, s, e, keyless, lastSeparated);
    } else if s == FlowSequence {
      FlowPairRuns(tokens, c, s, e, keyless, lastSeparated);
    } else {
      MappingPairRuns(tokens, c, s, e, keyless, lastSeparated);
    }
  }

  lemma EntryKinds(s: Shape, e: Entry, keyless: bool)
    requires DerivedOne(s, e, keyless)
    ensures s == BlockSequence || s == Indentless ==> e.Item?
    ensures s == BlockMapping ==> e.Pair?
    ensures s == BlockSequence || s == Indentless || IsFlow(s) || s == BlockMapping
    ensures IsFlow(s) <==> s == FlowSequence || s == FlowMapping
    ensures e.Pair? ==> IsMapping(s) || s == FlowSequence
  {
    hide Derived;
  }

  // The first token of an optional node, or of what comes after it.
  lemma SlotBegins(tokens: seq<Token>, i: nat, n: Node, block: bool, indentless: bool)
    requires Optional(n, block, indentless) && Stand(tokens, i, Tokens(n))
    ensures !n.Missing? ==> i < |tokens| && Begins(tokens[i].kind, block, indentless)
  {
    hide Derived, Tokens;
    if !n.Missing? {
      NodeBegins(n, block, indentless);
      assert Tokens(n) == [Tokens(n)[0]] + Tokens(n)[1..];
      StandOne(tokens, i, Tokens(n)[0], Tokens(n)[1..]);
    }
  }

  lemma {:induction false} BlockItemRuns(tokens: seq<Token>, c: Config, s: Shape, e: Entry, keyless: bool, lastSeparated: bool)
    requires (s == BlockSequence || s == Indentless) && DerivedOne(s, e, keyless) && SupportedOne(c.tags, s, e, lastSeparated)
    requires Stand(tokens, c.pos, OneTokens(s, e)) && AfterEntry(tokens, c.pos + |OneTokens(s, e)|, s, Complete(e))
    ensures GivesAll(tokens, Past(tokens, c, s), OneEvents(c.tags, s, e), c.(pos := c.pos + |OneTokens(s, e)|, state := EntryState(s)))
    decreases e, 2
  {
    hide *;
    ItemMeans(tokens, c, s, e, keyless);
    ItemSupported(c.tags, s, e, lastSeparated);
    var d := c.(pos := c.pos + 1);
    SlotRuns(tokens, d, e.node, EntryState(s), true, false);
  }

  lemma ItemMeans(tokens: seq<Token>, c: Config, s: Shape, e: Entry, keyless: bool)
    requires (s == BlockSequence || s == Indentless) && DerivedOne(s, e, keyless)
    requires Stand(tokens, c.pos, OneTokens(s, e)) && AfterEntry(tokens, c.pos + |OneTokens(s, e)|, s, Complete(e))
    ensures e.Item? && Optional(e.node, true, false) && Stand(tokens, c.pos + 1, Tokens(e.node))
    ensures |OneTokens(s, e)| == 1 + |Tokens(e.node)| && Follows(tokens, c.pos + 1 + |Tokens(e.node)|, false)
    ensures OneEvents(c.tags, s, e) == Events(c.tags, e.node)
    ensures Past(tokens, c, s) == Slot(tokens, c.(pos := c.pos + 1), e.node, EntryState(s), true, false)
  {
    hide NodeStep, ThenNode, Derived, Supported, Tokens, Events, Stand;
    StandOne(tokens, c.pos, Sign(BlockEntryToken), Tokens(e.node));
    SlotBegins(tokens, c.pos + 1, e.node, true, false);
    if e.node.Missing? { NoTokens(e.node); }
  }

  lemma ItemSupported(tags: seq<TagDirective>, s: Shape, e: Entry, lastSeparated: bool)
    requires e.Item?
    ensures SupportedOne(tags, s, e, lastSeparated) <==> Supported(tags, e.node)
  {
    hide Supported;
  }

  lemma NoTokens(n: Node)
    requires n.Missing?
    ensures Tokens(n) == []
  {
  }

  // ---------- pairs ----------

  // The state after a key, and the one after its value.
  function ValueState(s: Shape): PState {
    if s == BlockMapping then AtBlockMappingValue else if s == FlowMapping then AtFlowMappingValue else AtFlowSequenceEntryMappingValue
  }

  function DoneState(s: Shape): PState {
    if s == FlowSequence then AtFlowSequenceEntryMappingEnd else EntryState(s)
  }

  predicate HasPairs(s: Shape) {
    s == BlockMapping || s == FlowMapping || s == FlowSequence
  }

  function ValueTokens(e: Entry): seq<Token>
    requires e.Pair?
  {
    if e.hasValue then [Sign(ValueToken)] + Tokens(e.value) else []
  }

  lemma {:induction false} ValueRuns(tokens: seq<Token>, c: Config, s: Shape, e: Entry, keyless: bool)
    requires HasPairs(s) && e.Pair? && DerivedOne(s, e, keyless) && Supported(c.tags, e.value) && c.state == ValueState(s)
    requires Stand(tokens, c.pos, ValueTokens(e)) && AfterEntry(tokens, c.pos + |ValueTokens(e)|, s, e.hasValue)
    ensures Runs(tokens, c, Events(c.tags, e.value), c.(pos := c.pos + |ValueTokens(e)|, state := DoneState(s)))
    decreases e, 0
  {
    hide *;
    var d := c.(pos := c.pos + if e.hasValue then 1 else 0);
    ValueSteps(tokens, c, s, e, keyless);
    SlotRuns(tokens, d, e.value, DoneState(s), !IsFlow(s), !IsFlow(s));
    GivesRuns(tokens, c, Events(c.tags, e.value), c.(pos := c.pos + |ValueTokens(e)|, state := DoneState(s)));
  }

  lemma ValueSteps(tokens: seq<Token>, c: Config, s: Shape, e: Entry, keyless: bool)
    requires HasPairs(s) && e.Pair? && DerivedOne(s, e, keyless) && c.state == ValueState(s)
    requires Stand(tokens, c.pos, ValueTokens(e)) && AfterEntry(tokens, c.pos + |ValueTokens(e)|, s, e.hasValue)
    ensures var d := c.(pos := c.pos + if e.hasValue then 1 else 0); var b := !IsFlow(s);
      && Optional(e.value, b, b) && Stand(tokens, d.pos, Tokens(e.value)) && Follows(tokens, d.pos + |Tokens(e.value)|, b)
      && |ValueTokens(e)| == |Tokens(e.value)| + (if e.hasValue then 1 else 0)
      && Step(tokens, c) == Slot(tokens, d, e.value, DoneState(s), b, b)
  {
    hide *;
    ValueDerived(s, e, keyless);
    ValueStands(tokens, c.pos, e);
    if e.value.Missing? { NoTokens(e.value); }
    if e.hasValue { SlotBegins(tokens, c.pos + 1, e.value, !IsFlow(s), !IsFlow(s)); }
    AfterFollows(tokens, c.pos + |ValueTokens(e)|, s, e.hasValue);
    ValueStep(tokens, c, s, e);
  }

  lemma ValueDerived(s: Shape, e: Entry, keyless: bool)
    requires HasPairs(s) && e.Pair? && DerivedOne(s, e, keyless)
    ensures Optional(e.value, !IsFlow(s), !IsFlow(s)) && (!e.hasValue ==> e.value.Missing?)
  {
    hide Derived;
  }

  lemma ValueStands(tokens: seq<Token>, i: nat, e: Entry)
    requires e.Pair? && Stand(tokens, i, ValueTokens(e)) && (!e.hasValue ==> e.value.Missing?)
    ensures var k := if e.hasValue then 1 else 0;
      Stand(tokens, i + k, Tokens(e.value)) && |ValueTokens(e)| == |Tokens(e.value)| + k && (e.hasValue ==> Is(tokens, i, ValueToken))
  {
    hide Tokens, Stand;
    if e.value.Missing? { NoTokens(e.value); }
    if e.hasValue { StandOne(tokens, i, Sign(ValueToken), Tokens(e.value)); }
  }

  lemma AfterFollows(tokens: seq<Token>, i: nat, s: Shape, keyless: bool)
    requires HasPairs(s) && AfterEntry(tokens, i, s, keyless)
    ensures Follows(tokens, i, !IsFlow(s))
  {
  }

  // What the state after a key does.
  lemma ValueStep(tokens: seq<Token>, c: Config, s: Shape, e: Entry)
    requires HasPairs(s) && e.Pair? && c.state == ValueState(s) && (!e.hasValue ==> e.value.Missing?)
    requires e.hasValue ==> Is(tokens, c.pos, ValueToken)
    requires if e.value.Missing? then AfterEntry(tokens, c.pos + (if e.hasValue then 1 else 0), s, e.hasValue)
      else c.pos + 1 < |tokens| && Begins(tokens[c.pos + 1].kind, !IsFlow(s), !IsFlow(s))
    ensures Step(tokens, c) == Slot(tokens, c.(pos := c.pos + if e.hasValue then 1 else 0), e.value, DoneState(s), !IsFlow(s), !IsFlow(s))
  {
    hide ThenNode;
  }

  // The key of a pair in a mapping.
  lemma KeySteps(tokens: seq<Token>, c: Config, s: Shape, e: Entry, keyless: bool)
    requires HasPairs(s) && e.Pair? && e.hasKey && DerivedOne(s, e, keyless)
    requires Stand(tokens, c.pos, OneTokens(s, e)) && AfterEntry(tokens, c.pos + |OneTokens(s, e)|, s, e.hasValue)
    ensures var d := c.(pos := c.pos + 1); var b := !IsFlow(s);
      && Is(tokens, c.pos, KeyToken)
      && Optional(e.key, b, b) && Stand(tokens, d.pos, Tokens(e.key)) && Follows(tokens, d.pos + |Tokens(e.key)|, b)
      && Stand(tokens, d.pos + |Tokens(e.key)|, ValueTokens(e)) && |OneTokens(s, e)| == 1 + |Tokens(e.key)| + |ValueTokens(e)|
      && (IsMapping(s) ==> Past(tokens, c, s) == Slot(tokens, d, e.key, ValueState(s), b, b))
      && (s == FlowSequence && !e.key.Missing? ==>
        Step(tokens, d.(state := AtFlowSequenceEntryMappingKey)) == Slot(tokens, d.(state := AtFlowSequenceEntryMappingKey), e.key, ValueState(s), b, b))
  {
    hide NodeStep, ThenNode, Derived, Tokens, Stand, ValueTokens;
    PairStands(tokens, c.pos, s, e);
    ValueBegins(tokens, c.pos + 1 + |Tokens(e.key)|, s, e);
    SlotBegins(tokens, c.pos + 1, e.key, !IsFlow(s), !IsFlow(s));
    if e.key.Missing? { NoTokens(e.key); }
  }

  lemma PairStands(tokens: seq<Token>, i: nat, s: Shape, e: Entry)
    requires e.Pair? && e.hasKey && Stand(tokens, i, OneTokens(s, e))
    ensures Is(tokens, i, KeyToken) && Stand(tokens, i + 1, Tokens(e.key)) && Stand(tokens, i + 1 + |Tokens(e.key)|, ValueTokens(e))
    ensures |OneTokens(s, e)| == 1 + |Tokens(e.key)| + |ValueTokens(e)|
  {
    hide Stand, Tokens;
    StandSplit(tokens, i, [Sign(KeyToken)] + Tokens(e.key), ValueTokens(e));
    StandOne(tokens, i, Sign(KeyToken), Tokens(e.key));
  }

  // The token after a key.
  lemma ValueBegins(tokens: seq<Token>, i: nat, s: Shape, e: Entry)
    requires e.Pair? && Stand(tokens, i, ValueTokens(e)) && AfterEntry(tokens, i + |ValueTokens(e)|, s, e.hasValue)
    ensures Is(tokens, i, ValueToken) || AfterEntry(tokens, i, s, false)
  {
    hide Tokens, Stand;
    if e.hasValue { StandOne(tokens, i, Sign(ValueToken), Tokens(e.value)); }
  }

  lemma {:induction false} MappingPairRuns(tokens: seq<Token>, c: Config, s: Shape, e: Entry, keyless: bool, lastSeparated: bool)
    requires IsMapping(s) && e.Pair? && DerivedOne(s, e, keyless) && SupportedOne(c.tags, s, e, lastSeparated)
    requires Stand(tokens, c.pos, OneTokens(s, e)) && AfterEntry(tokens, c.pos + |OneTokens(s, e)|, s, Complete(e))
    ensures GivesAll(tokens, Past(tokens, c, s), OneEvents(c.tags, s, e), c.(pos := c.pos + |OneTokens(s, e)|, state := EntryState(s)))
    decreases e, 2
  {
    hide *;
    PairMeans(c.tags, s, e, keyless, lastSeparated);
    KeySteps(tokens, c, s, e, keyless);
    var d, b := c.(pos := c.pos + 1), !IsFlow(s);
    var v := d.(pos := d.pos + |Tokens(e.key)|, state := ValueState(s));
    SlotRuns(tokens, d, e.key, ValueState(s), b, b);
    ValueRuns(tokens, v, s, e, keyless);
    GivesJoin(tokens, Past(tokens, c, s), Events(c.tags, e.key), v, Events(c.tags, e.value), c.(pos := c.pos + |OneTokens(s, e)|, state := EntryState(s)));
  }

  lemma PairMeans(tags: seq<TagDirective>, s: Shape, e: Entry, keyless: bool, lastSeparated: bool)
    requires e.Pair? && DerivedOne(s, e, keyless)
    ensures HasPairs(s) && Complete(e) == e.hasValue && (e.hasKey || s == BlockMapping)
    ensures SupportedOne(tags, s, e, lastSeparated) <==>
      && e.hasKey && Supported(tags, e.key) && Supported(tags, e.value)
      && (s == FlowSequence && e.key.Missing? ==> e.value.Missing? && (e.hasValue || lastSeparated))
    ensures IsMapping(s) ==> OneEvents(tags, s, e) == Events(tags, e.key) + Events(tags, e.value) && DoneState(s) == EntryState(s)
    ensures s == FlowSequence ==> DoneState(s) == AtFlowSequenceEntryMappingEnd && EntryState(s) == AtFlowSequenceEntry
    ensures s == FlowSequence ==>
      OneEvents(tags, s, e) == [MappingStart("", "", true, true)] + (Events(tags, e.key) + Events(tags, e.value) + [MappingEnd])
  {
    hide Derived, Supported, Events;
  }

  lemma {:induction false} FlowKeyRuns(tokens: seq<Token>, c: Config, s: Shape, e: Entry, keyless: bool, lastSeparated: bool)
    requires s == FlowMapping && e.Item? && DerivedOne(s, e, keyless) && SupportedOne(c.tags, s, e, lastSeparated)
    requires Stand(tokens, c.pos, OneTokens(s, e)) && AfterEntry(tokens, c.pos + |OneTokens(s, e)|, s, Complete(e))
    ensures GivesAll(tokens, Past(tokens, c, s), OneEvents(c.tags, s, e), c.(pos := c.pos + |OneTokens(s, e)|, state := EntryState(s)))
    decreases e, 2
  {
    hide *;
    FlowItemEvents(c.tags, s, e);
    FlowItemMeans(tokens, c, s, e, keyless);
    ItemSupported(c.tags, s, e, lastSeparated);
    SlotRuns(tokens, c, e.node, AtFlowMappingEmptyValue, false, false);
    var d' := c.(pos := c.pos + |Tokens(e.node)|, state := AtFlowMappingEmptyValue);
    EmptyValueRuns(tokens, d');
    GivesJoin(tokens, Past(tokens, c, s), Events(c.tags, e.node), d', [EMPTY], d'.(state := AtFlowMappingKey));
  }

  lemma FlowItemMeans(tokens: seq<Token>, c: Config, s: Shape, e: Entry, keyless: bool)
    requires IsFlow(s) && e.Item? && DerivedOne(s, e, keyless)
    requires Stand(tokens, c.pos, OneTokens(s, e)) && AfterEntry(tokens, c.pos + |OneTokens(s, e)|, s, Complete(e))
    ensures Optional(e.node, false, false) && Stand(tokens, c.pos, Tokens(e.node))
    ensures OneTokens(s, e) == Tokens(e.node) && Follows(tokens, c.pos + |Tokens(e.node)|, false) && c.pos + |Tokens(e.node)| < |tokens|
    ensures Past(tokens, c, s) == Slot(tokens, c, e.node, if s == FlowMapping then AtFlowMappingEmptyValue else AtFlowSequenceEntry, false, false)
  {
    hide NodeStep, ThenNode, Derived, Supported, Tokens, Events, Stand, EndMarked, FlowAfterKeyStep;
    NodeBegins(e.node, false, false);
    SlotBegins(tokens, c.pos, e.node, false, false);
  }

  lemma FlowItemEvents(tags: seq<TagDirective>, s: Shape, e: Entry)
    requires e.Item?
    ensures s == FlowMapping ==> OneEvents(tags, s, e) == Events(tags, e.node) + [EMPTY] && EntryState(s) == AtFlowMappingKey && IsFlow(s)
    ensures s == FlowSequence ==> OneEvents(tags, s, e) == Events(tags, e.node) && EntryState(s) == AtFlowSequenceEntry && IsFlow(s)
  {
    hide Events;
  }

  lemma EmptyValueRuns(tokens: seq<Token>, c: Config)
    requires c.state == AtFlowMappingEmptyValue && c.pos < |tokens|
    ensures Runs(tokens, c, [EMPTY], c.(state := AtFlowMappingKey))
  {
    assert Step(tokens, c) == Gives(EMPTY, c.(state := AtFlowMappingKey));
  }

  lemma {:induction false} FlowItemRuns(tokens: seq<Token>, c: Config, s: Shape, e: Entry, keyless: bool, lastSeparated: bool)
    requires s == FlowSequence && e.Item? && DerivedOne(s, e, keyless) && SupportedOne(c.tags, s, e, lastSeparated)
    requires Stand(tokens, c.pos, OneTokens(s, e)) && AfterEntry(tokens, c.pos + |OneTokens(s, e)|, s, Complete(e))
    ensures GivesAll(tokens, Past(tokens, c, s), OneEvents(c.tags, s, e), c.(pos := c.pos + |OneTokens(s, e)|, state := EntryState(s)))
    decreases e, 2
  {
    hide *;
    FlowItemEvents(c.tags, s, e);
    FlowItemMeans(tokens, c, s, e, keyless);
    ItemSupported(c.tags, s, e, lastSeparated);
    SlotRuns(tokens, c, e.node, AtFlowSequenceEntry, false, false);
  }

  lemma {:induction false} FlowPairRuns(tokens: seq<Token>, c: Config, s: Shape, e: Entry, keyless: bool, lastSeparated: bool)
    requires s == FlowSequence && e.Pair? && !Losing(s, e) && DerivedOne(s, e, keyless) && SupportedOne(c.tags, s, e, lastSeparated)
    requires Stand(tokens, c.pos, OneTokens(s, e)) && AfterEntry(tokens, c.pos + |OneTokens(s, e)|, s, Complete(e))
    ensures GivesAll(tokens, Past(tokens, c, s), OneEvents(c.tags, s, e), c.(pos := c.pos + |OneTokens(s, e)|, state := EntryState(s)))
    decreases e, 2
  {
    hide *;
    PairMeans(c.tags, s, e, keyless, lastSeparated);
    KeySteps(tokens, c, s, e, keyless);
    if e.key.Missing? {
      KeylessMeans(tokens, c, s, e);
      KeylessPairRuns(tokens, c);
    } else {
      var d := c.(pos := c.pos + 1, state := AtFlowSequenceEntryMappingKey);
      KeyedPairRuns(tokens, d, s, e, keyless, lastSeparated);
      var end := c.(pos := c.pos + |OneTokens(s, e)|, state := AtFlowSequenceEntry);
      var events := Events(c.tags, e.key) + Events(c.tags, e.value) + [MappingEnd];
      PairStep(tokens, c);
      GivesOne(tokens, FlowItemStep(tokens, c));
      PastIsItem(tokens, c, s);
      GivesJoin(tokens, FlowItemStep(tokens, c), [MappingStart("", "", true, true)], d, events, end);
    }
  }

  lemma PairStep(tokens: seq<Token>, c: Config)
    requires Is(tokens, c.pos, KeyToken)
    ensures FlowItemStep(tokens, c) == Gives(MappingStart("", "", true, true), c.(pos := c.pos + 1, state := AtFlowSequenceEntryMappingKey))
  {
  }

  lemma PastIsItem(tokens: seq<Token>, c: Config, s: Shape)
    requires s == FlowSequence
    ensures Past(tokens, c, s) == FlowItemStep(tokens, c)
  {
    hide FlowItemStep;
  }

  lemma KeylessMeans(tokens: seq<Token>, c: Config, s: Shape, e: Entry)
    requires s == FlowSequence && e.Pair? && e.hasKey && e.key.Missing? && e.value.Missing? && !Losing(s, e)
    requires Stand(tokens, c.pos, OneTokens(s, e)) && AfterEntry(tokens, c.pos + |OneTokens(s, e)|, s, Complete(e))
    ensures Is(tokens, c.pos, KeyToken) && Is(tokens, c.pos + 1, ValueToken) && |OneTokens(s, e)| == 2
    ensures Is(tokens, c.pos + 2, FlowEntryToken) || Is(tokens, c.pos + 2, FlowSequenceEndToken)
    ensures Past(tokens, c, s) == FlowItemStep(tokens, c)
    ensures Events(c.tags, e.key) == [EMPTY] && Events(c.tags, e.value) == [EMPTY] && EntryState(s) == AtFlowSequenceEntry
  {
    hide FlowItemStep, Stand;
    assert OneTokens(s, e) == [Sign(KeyToken)] + [Sign(ValueToken)] && [Sign(ValueToken)] + [] == [Sign(ValueToken)];
    StandOne(tokens, c.pos, Sign(KeyToken), [Sign(ValueToken)]);
    StandOne(tokens, c.pos + 1, Sign(ValueToken), []);
  }

  // A pair with a key in a flow sequence, past the key indicator.
  lemma {:induction false} KeyedPairRuns(tokens: seq<Token>, d: Config, s: Shape, e: Entry, keyless: bool, lastSeparated: bool)
    requires d.state == AtFlowSequenceEntryMappingKey && d.pos > 0 && s == FlowSequence && e.Pair? && !e.key.Missing?
    requires DerivedOne(s, e, keyless) && SupportedOne(d.tags, s, e, lastSeparated)
    requires Stand(tokens, d.pos - 1, OneTokens(s, e)) && AfterEntry(tokens, d.pos - 1 + |OneTokens(s, e)|, s, Complete(e))
    ensures Runs(tokens, d, Events(d.tags, e.key) + Events(d.tags, e.value) + [MappingEnd], d.(pos := d.pos - 1 + |OneTokens(s, e)|, state := AtFlowSequenceEntry))
    decreases e, 1
  {
    hide *;
    PairMeans(d.tags, s, e, keyless, lastSeparated);
    var c := d.(pos := d.pos - 1);
    KeySteps(tokens, c, s, e, keyless);
    var v := d.(pos := d.pos + |Tokens(e.key)|, state := ValueState(s));
    var m := v.(pos := v.pos + |ValueTokens(e)|, state := DoneState(s));
    var end := m.(state := AtFlowSequenceEntry);
    SlotRuns(tokens, d, e.key, ValueState(s), !IsFlow(s), !IsFlow(s));
    GivesRuns(tokens, d, Events(d.tags, e.key), v);
    ValueRuns(tokens, v, s, e, keyless);
    PairEndRuns(tokens, m, s, e.hasValue);
    RunsJoin(tokens, d, Events(d.tags, e.key), v, Events(d.tags, e.value), m);
    RunsJoin(tokens, d, Events(d.tags, e.key) + Events(d.tags, e.value), m, [MappingEnd], end);
  }

  lemma PairEndRuns(tokens: seq<Token>, m: Config, s: Shape, k: bool)
    requires m.state == AtFlowSequenceEntryMappingEnd && AfterEntry(tokens, m.pos, s, k)
    ensures Runs(tokens, m, [MappingEnd], m.(state := AtFlowSequenceEntry))
  {
    assert Step(tokens, m) == Gives(MappingEnd, m.(state := AtFlowSequenceEntry));
  }
}
