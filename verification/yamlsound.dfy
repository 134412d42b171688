// The other way round: whatever tokens the YAML parser takes to the end, they are
// those of a derivation, unless it takes a token for a missing key on the way.

module YamlSound {
  import opened YamlEvents
  import opened YamlSteps
  import opened YamlGrammar
  import opened YamlAccept
  import opened YamlReject
  import opened YamlStream
  import L = YamlLanguage

  // ---------- tokens and runs ----------

  // A token carries nothing but what its kind is for.
  predicate Tidy(t: Token) {
    match t.kind
    case ScalarToken => t == Sign(ScalarToken).(value := t.value, plain := t.plain)
    case AliasToken => t == Sign(AliasToken).(value := t.value)
    case AnchorToken => t == Sign(AnchorToken).(value := t.value)
    case TagToken => t == Sign(TagToken).(value := t.value, suffix := t.suffix)
    case VersionDirectiveToken => t == Sign(VersionDirectiveToken).(major := t.major, minor := t.minor)
    case TagDirectiveToken => t == Sign(TagDirectiveToken).(value := t.value, prefix := t.prefix)
    case _ => t == Sign(t.kind)
  }

  predicate AllTidy(tokens: seq<Token>) {
    forall i :: 0 <= i < |tokens| ==> Tidy(tokens[i])
  }

  // In a flow sequence the token at hand would be taken for a key that is missing.
  predicate Swallows(tokens: seq<Token>, c: Config) {
    && c.state == AtFlowSequenceEntryMappingKey
    && (Is(tokens, c.pos, ValueToken) || Is(tokens, c.pos, FlowEntryToken) || Is(tokens, c.pos, FlowSequenceEndToken))
  }

  // From c the events lead to d, at the end of the stream, and nothing is swallowed.
  ghost predicate Goes(tokens: seq<Token>, c: Config, events: seq<Event>, d: Config)
    decreases |events|
  {
    if events == [] then c == d && d.state == AtEnd
    else
      var o := Step(tokens, c);
      o.Gives? && o.event == events[0] && !Swallows(tokens, c) && Goes(tokens, o.next, events[1..], d)
  }

  ghost predicate GoesFrom(tokens: seq<Token>, o: Outcome, events: seq<Event>, d: Config) {
    events != [] && o.Gives? && Goes(tokens, o.next, events[1..], d)
  }

  lemma GoesStep(tokens: seq<Token>, c: Config, events: seq<Event>, d: Config)
    requires Goes(tokens, c, events, d) && c.state != AtEnd
    ensures GoesFrom(tokens, Step(tokens, c), events, d) && !Swallows(tokens, c)
  {
    hide Step;
  }

  lemma StandNone(tokens: seq<Token>, i: nat)
    requires i <= |tokens|
    ensures Stand(tokens, i, [])
  {
  }

  lemma StandJoin(tokens: seq<Token>, i: nat, a: seq<Token>, b: seq<Token>)
    requires Stand(tokens, i, a) && Stand(tokens, i + |a|, b)
    ensures Stand(tokens, i, a + b)
  {
    assert tokens[i..i + |a + b|] == tokens[i..i + |a|] + tokens[i + |a|..i + |a + b|];
  }

  lemma StandAt(tokens: seq<Token>, i: nat, k: Kind)
    requires AllTidy(tokens) && Is(tokens, i, k)
    requires k != ScalarToken && k != AliasToken && k != AnchorToken && k != TagToken && k != VersionDirectiveToken && k != TagDirectiveToken
    ensures tokens[i] == Sign(k) && Stand(tokens, i, [Sign(k)])
  {
    assert Tidy(tokens[i]);
    assert tokens[i..i + 1] == [tokens[i]];
  }

  lemma StandToken(tokens: seq<Token>, i: nat)
    requires i < |tokens|
    ensures Stand(tokens, i, [tokens[i]])
  {
    assert tokens[i..i + 1] == [tokens[i]];
  }

  // ---------- properties ----------

  // What stands at i, read as an anchor and a tag in either order.
  function PropsAt(tokens: seq<Token>, i: nat): Props {
    var anchorFirst, tagFirst := Is(tokens, i, AnchorToken), Is(tokens, i, TagToken);
    var a := if anchorFirst then i else i + 1;
    var t := if tagFirst then i else i + 1;
    Props(if anchorFirst || (tagFirst && Is(tokens, a, AnchorToken)) then Some(tokens[a].value) else None,
          if tagFirst || (anchorFirst && Is(tokens, t, TagToken)) then Some(Tag(tokens[t].value, tokens[t].suffix)) else None, tagFirst)
  }

  lemma PropsStand(tokens: seq<Token>, i: nat, p: Props)
    requires AllTidy(tokens) && p == PropsAt(tokens, i) && i <= |tokens|
    ensures Stand(tokens, i, PropTokens(p))
  {
    hide Stand;
    if p.anchor.Some? && p.tag.Some? {
      StandToken(tokens, i);
      StandToken(tokens, i + 1);
      StandJoin(tokens, i, [tokens[i]], [tokens[i + 1]]);
      assert Tidy(tokens[i]) && Tidy(tokens[i + 1]);
    } else if p.anchor.Some? || p.tag.Some? {
      StandToken(tokens, i);
      assert Tidy(tokens[i]);
      assert [tokens[i]] + [] == [tokens[i]] == [] + [tokens[i]];
    } else {
      assert PropTokens(p) == [];
      StandNone(tokens, i);
    }
  }

  lemma PropsRight(tokens: seq<Token>, i: nat, tags: seq<TagDirective>, p: Props)
    requires PropertiesAt(tokens, i, tags).Properties? && p == PropsAt(tokens, i)
    ensures TagIn(tags, p).Some? && i + |PropTokens(p)| < |tokens|
    ensures PropertiesAt(tokens, i, tags) == Properties(AnchorOf(p), TagText(tags, p), i + |PropTokens(p)|)
  {
    hide TagOf, Meant;
    if p.tag.Some? { TagAgrees(tags, p.tag.value); }
  }

  lemma PropsBack(tokens: seq<Token>, i: nat, tags: seq<TagDirective>) returns (p: Props)
    requires AllTidy(tokens) && PropertiesAt(tokens, i, tags).Properties?
    ensures Stand(tokens, i, PropTokens(p)) && TagIn(tags, p).Some?
    ensures PropertiesAt(tokens, i, tags) == Properties(AnchorOf(p), TagText(tags, p), i + |PropTokens(p)|)
    ensures i + |PropTokens(p)| < |tokens|
  {
    hide *;
    p := PropsAt(tokens, i);
    PropsRight(tokens, i, tags, p);
    PropsStand(tokens, i, p);
  }

  // ---------- nodes ----------

  datatype Content = AText | AShape(s: Shape) | Nothing

  // What there was for content.
  lemma ContentIs(tokens: seq<Token>, c: Config, block: bool, indentless: bool, anchor: string, tag: string) returns (k: Content)
    requires ContentStep(tokens, c, block, indentless, anchor, tag).Gives?
    ensures var o := ContentStep(tokens, c, block, indentless, anchor, tag);
      match k
      case AText => Is(tokens, c.pos, ScalarToken) && o == Popped(c.(pos := c.pos + 1), o.event)
      case AShape(s) =>
        && Is(tokens, c.pos, OpeningKind(s)) && (s == Indentless ==> indentless) && (s == BlockSequence || s == BlockMapping ==> block)
        && o.next == c.(state := FirstState(s))
      case Nothing => (anchor != "" || tag != "") && o == Popped(c, o.event)
  {
    if Is(tokens, c.pos, ScalarToken) {
      k := AText;
    } else if indentless && Is(tokens, c.pos, BlockEntryToken) {
      k := AShape(Indentless);
    } else if Is(tokens, c.pos, FlowSequenceStartToken) {
      k := AShape(FlowSequence);
    } else if Is(tokens, c.pos, FlowMappingStartToken) {
      k := AShape(FlowMapping);
    } else if block && Is(tokens, c.pos, BlockSequenceStartToken) {
      k := AShape(BlockSequence);
    } else if block && Is(tokens, c.pos, BlockMappingStartToken) {
      k := AShape(BlockMapping);
    } else {
      k := Nothing;
    }
  }

  lemma PoppedIs(c: Config, e: Event)
    requires c.states != []
    ensures Popped(c, e) == Gives(e, Followed(c, 0))
  {
  }

  lemma FollowedTwice(c: Config, i: nat, n: nat)
    requires c.states != []
    ensures Followed(c.(pos := c.pos + i), n) == Followed(c, i + n)
  {
  }

  // Either an alias, or properties and then content.
  lemma NodeSplits(tokens: seq<Token>, c: Config, block: bool, indentless: bool)
    requires NodeStep(tokens, c, block, indentless).Gives? && c.states != []
    ensures var o := NodeStep(tokens, c, block, indentless);
      var p := PropertiesAt(tokens, c.pos, c.tags);
      if Is(tokens, c.pos, AliasToken) then o.next == Followed(c, 1)
      else p.Properties? && o == ContentStep(tokens, c.(pos := p.next), block, indentless, p.anchor, p.tag)
  {
    hide PropertiesAt, ContentStep;
  }

  // The tokens of a node from c on, and what the parser goes on with after it.
  ghost predicate NodeFound(tokens: seq<Token>, c: Config, n: Node, block: bool, indentless: bool, rest: seq<Event>, d: Config) {
    && c.states != [] && Derived(n, block, indentless) && Supported(c.tags, n) && Stand(tokens, c.pos, Tokens(n))
    && Goes(tokens, Followed(c, |Tokens(n)|), rest, d)
  }

  lemma {:induction false} NodeBack(tokens: seq<Token>, c: Config, block: bool, indentless: bool, events: seq<Event>, d: Config)
    returns (n: Node, rest: seq<Event>)
    requires AllTidy(tokens) && c.states != [] && GoesFrom(tokens, NodeStep(tokens, c, block, indentless), events, d)
    ensures NodeFound(tokens, c, n, block, indentless, rest, d) && |rest| < |events|
    decreases |events|, 1
  {
    hide *;
    var o := NodeStep(tokens, c, block, indentless);
    FromGives(tokens, o, events, d);
    NodeSplits(tokens, c, block, indentless);
    if Is(tokens, c.pos, AliasToken) {
      rest := events[1..];
      n := AliasBack(tokens, c, block, indentless, rest, d);
    } else {
      var p := PropsBack(tokens, c.pos, c.tags);
      var e := c.(pos := c.pos + |PropTokens(p)|);
      var k := ContentIs(tokens, e, block, indentless, AnchorOf(p), TagText(c.tags, p));
      if k.AShape? {
        n, rest := CollectionBack(tokens, c, p, k.s, block, indentless, events, d);
      } else {
        rest := events[1..];
        n := LeafBack(tokens, c, p, k, block, indentless, o, rest, d);
      }
    }
  }

  lemma FromGives(tokens: seq<Token>, o: Outcome, events: seq<Event>, d: Config)
    requires GoesFrom(tokens, o, events, d)
    ensures o.Gives? && events != [] && Goes(tokens, o.next, events[1..], d)
  {
    hide Goes;
  }

  lemma AliasBack(tokens: seq<Token>, c: Config, block: bool, indentless: bool, rest: seq<Event>, d: Config) returns (n: Node)
    requires AllTidy(tokens) && c.states != [] && Is(tokens, c.pos, AliasToken) && Goes(tokens, Followed(c, 1), rest, d)
    ensures NodeFound(tokens, c, n, block, indentless, rest, d)
  {
    hide Goes;
    assert Tidy(tokens[c.pos]);
    n := Reference(tokens[c.pos].value);
    StandToken(tokens, c.pos);
  }

  lemma LeafBack(tokens: seq<Token>, c: Config, p: Props, k: Content, block: bool, indentless: bool, o: Outcome, rest: seq<Event>, d: Config)
    returns (n: Node)
    requires AllTidy(tokens) && c.states != [] && Stand(tokens, c.pos, PropTokens(p)) && TagIn(c.tags, p).Some?
    requires o.Gives? && Goes(tokens, o.next, rest, d)
    requires var e := c.(pos := c.pos + |PropTokens(p)|);
      if k.AText? then Is(tokens, e.pos, ScalarToken) && o == Popped(e.(pos := e.pos + 1), o.event)
      else (AnchorOf(p) != "" || TagText(c.tags, p) != "") && o == Popped(e, o.event)
    ensures NodeFound(tokens, c, n, block, indentless, rest, d)
  {
    hide *;
    var i := |PropTokens(p)|;
    var e := c.(pos := c.pos + i);
    if k.AText? {
      TidyText(tokens, e.pos);
      var t := tokens[e.pos];
      n := Leaf(p, Some(Text(t.value, t.plain)));
      StandToken(tokens, e.pos);
      StandJoin(tokens, c.pos, PropTokens(p), [t]);
      PoppedIs(e.(pos := e.pos + 1), o.event);
      FollowedTwice(c, i + 1, 0);
      assert e.(pos := e.pos + 1) == c.(pos := c.pos + (i + 1));
    } else {
      n := Leaf(p, None);
      TextTagged(c.tags, p);
      assert PropTokens(p) + [] == PropTokens(p);
      PoppedIs(e, o.event);
      FollowedTwice(c, i, 0);
    }
    LeafFound(tokens, c, n, block, indentless, rest, d);
  }

  lemma TidyText(tokens: seq<Token>, i: nat)
    requires AllTidy(tokens) && Is(tokens, i, ScalarToken)
    ensures i < |tokens| && tokens[i] == TextToken(Text(tokens[i].value, tokens[i].plain))
  {
    assert Tidy(tokens[i]);
  }

  lemma LeafFound(tokens: seq<Token>, c: Config, n: Node, block: bool, indentless: bool, rest: seq<Event>, d: Config)
    requires c.states != [] && n.Leaf? && TagIn(c.tags, n.props).Some? && (n.text.None? ==> AnchorOf(n.props) != "" || TagText(c.tags, n.props) != "")
    requires var ts := PropTokens(n.props) + if n.text.Some? then [TextToken(n.text.value)] else [];
      Stand(tokens, c.pos, ts) && Goes(tokens, Followed(c, |ts|), rest, d)
    ensures NodeFound(tokens, c, n, block, indentless, rest, d)
  {
    hide Goes, PropTokens, TagIn, Stand, TextToken;
    if n.text.None? { TextTagged(c.tags, n.props); }
  }

  lemma TextTagged(tags: seq<TagDirective>, p: Props)
    ensures TagText(tags, p) != "" ==> p.tag.Some?
  {
  }

  lemma {:induction false} CollectionBack(tokens: seq<Token>, c: Config, p: Props, s: Shape, block: bool, indentless: bool, events: seq<Event>, d: Config)
    returns (n: Node, rest: seq<Event>)
    requires AllTidy(tokens) && c.states != [] && Stand(tokens, c.pos, PropTokens(p)) && TagIn(c.tags, p).Some?
    requires var e := c.(pos := c.pos + |PropTokens(p)|);
      && Is(tokens, e.pos, OpeningKind(s)) && (s == Indentless ==> indentless) && (s == BlockSequence || s == BlockMapping ==> block)
      && events != [] && Goes(tokens, e.(state := FirstState(s)), events[1..], d)
    ensures NodeFound(tokens, c, n, block, indentless, rest, d) && |rest| < |events|
    decreases |events|, 0
  {
    hide *;
    var i := |PropTokens(p)|;
    var entered := c.(pos := c.pos + i, state := FirstState(s));
    FirstNotEnd(s);
    GoesStep(tokens, entered, events[1..], d);
    StepTurns(tokens, entered, s);
    EnteredAt(entered, s);
    OpeningIs(s);
    var e := Entered(entered, s != Indentless);
    var entries, trailing;
    entries, trailing, rest := EntriesBack(tokens, e, s, true, events[1..], d);
    FoundMeans(tokens, e, s, entries, trailing, true, rest, d);
    n := Collection(s, p, entries, trailing);
    CollectionStands(tokens, c.pos, n);
    if s == Indentless { NotEmpty(tokens, e.pos, entries); }
    AnyKeyless(s, entries, true);
    var inner := |EntryTokens(s, entries, trailing, true) + Closing(s)|;
    CollectionSays(c.tags, n, block, indentless);
    EndedIs(e, c, s, inner, |Tokens(n)|);
    NodeIsFound(tokens, c, n, block, indentless, rest, d);
  }

  lemma NodeIsFound(tokens: seq<Token>, c: Config, n: Node, block: bool, indentless: bool, rest: seq<Event>, d: Config)
    requires c.states != [] && Derived(n, block, indentless) && Supported(c.tags, n) && Stand(tokens, c.pos, Tokens(n))
    requires Goes(tokens, Followed(c, |Tokens(n)|), rest, d)
    ensures NodeFound(tokens, c, n, block, indentless, rest, d)
  {
    hide Goes, Derived, Supported, Stand;
  }

  lemma NodeMeans(tokens: seq<Token>, c: Config, n: Node, block: bool, indentless: bool, rest: seq<Event>, d: Config)
    requires NodeFound(tokens, c, n, block, indentless, rest, d)
    ensures c.states != [] && Derived(n, block, indentless) && Supported(c.tags, n) && Stand(tokens, c.pos, Tokens(n))
    ensures Goes(tokens, Followed(c, |Tokens(n)|), rest, d)
  {
    hide Goes, Derived, Supported, Stand;
  }

  lemma FirstNotEnd(s: Shape)
    ensures FirstState(s) != AtEnd && EntryState(s) != AtEnd
  {
  }

  lemma CollectionStands(tokens: seq<Token>, i: nat, n: Node)
    requires AllTidy(tokens) && n.Collection? && Stand(tokens, i, PropTokens(n.props)) && Is(tokens, i + |PropTokens(n.props)|, OpeningKind(n.shape))
    requires Stand(tokens, i + |PropTokens(n.props)| + |Opening(n.shape)|, EntryTokens(n.shape, n.entries, n.trailing, true) + Closing(n.shape))
    ensures Stand(tokens, i, Tokens(n))
    ensures |Tokens(n)| == |PropTokens(n.props)| + |Opening(n.shape)| + |EntryTokens(n.shape, n.entries, n.trailing, true) + Closing(n.shape)|
  {
    hide *;
    var s, ts, inner := n.shape, PropTokens(n.props), EntryTokens(n.shape, n.entries, n.trailing, true) + Closing(n.shape);
    CollectionTokens(n);
    var j := i + |ts|;
    if s == Indentless {
      OpeningIs(s);
      assert [] + inner == inner;
    } else {
      OpensHere(tokens, j, s);
      StandJoin(tokens, j, Opening(s), inner);
    }
    StandJoin(tokens, i, ts, Opening(s) + inner);
  }

  lemma OpensHere(tokens: seq<Token>, i: nat, s: Shape)
    requires AllTidy(tokens) && s != Indentless && Is(tokens, i, OpeningKind(s))
    ensures Stand(tokens, i, Opening(s))
  {
    hide Stand;
    StandAt(tokens, i, OpeningKind(s));
  }

  // An indentless sequence begins with an entry.
  lemma NotEmpty(tokens: seq<Token>, i: nat, entries: seq<Entry>)
    requires Is(tokens, i, BlockEntryToken)
    requires entries == [] ==> !Is(tokens, i, BlockEntryToken)
    ensures entries != []
  {
  }

  lemma CollectionSays(tags: seq<TagDirective>, n: Node, block: bool, indentless: bool)
    requires n.Collection? && DerivedAll(n.shape, n.entries, true) && SupportedAll(tags, n.shape, n.entries, n.trailing)
    requires TagIn(tags, n.props).Some? && (n.trailing ==> IsFlow(n.shape) && n.entries != [])
    requires n.shape == Indentless ==> indentless && n.entries != []
    requires n.shape == BlockSequence || n.shape == BlockMapping ==> block
    ensures Derived(n, block, indentless) && Supported(tags, n)
  {
    hide DerivedAll, SupportedAll;
  }

  // ---------- entries ----------

  // The entries of a collection and its end from c on, and what comes after it.
  ghost predicate EntriesFound(tokens: seq<Token>, c: Config, s: Shape, entries: seq<Entry>, trailing: bool, first: bool, rest: seq<Event>, d: Config) {
    && c.states != [] && (s != Indentless ==> c.marks > 0)
    && DerivedAll(s, entries, false) && SupportedAll(c.tags, s, entries, trailing) && (trailing ==> IsFlow(s) && !(first && entries == []))
    && Stand(tokens, c.pos, EntryTokens(s, entries, trailing, first) + Closing(s))
    && Goes(tokens, Ended(c, s, |EntryTokens(s, entries, trailing, first) + Closing(s)|), rest, d)
    && (s == Indentless && entries == [] ==> !Is(tokens, c.pos, BlockEntryToken))
  }

  lemma FoundMeans(tokens: seq<Token>, c: Config, s: Shape, entries: seq<Entry>, trailing: bool, first: bool, rest: seq<Event>, d: Config)
    requires EntriesFound(tokens, c, s, entries, trailing, first, rest, d)
    ensures c.states != [] && (s != Indentless ==> c.marks > 0)
    ensures DerivedAll(s, entries, false) && SupportedAll(c.tags, s, entries, trailing) && (trailing ==> IsFlow(s) && !(first && entries == []))
    ensures Stand(tokens, c.pos, EntryTokens(s, entries, trailing, first) + Closing(s))
    ensures Goes(tokens, Ended(c, s, |EntryTokens(s, entries, trailing, first) + Closing(s)|), rest, d)
    ensures s == Indentless && entries == [] ==> !Is(tokens, c.pos, BlockEntryToken)
  {
    hide Goes, DerivedAll, SupportedAll, Stand;
  }

  predicate AtEndOf(tokens: seq<Token>, i: nat, s: Shape) {
    match s
    case BlockSequence => Is(tokens, i, BlockEndToken)
    case Indentless => !Is(tokens, i, BlockEntryToken)
    case BlockMapping => Is(tokens, i, BlockEndToken)
    case FlowSequence => Is(tokens, i, FlowSequenceEndToken)
    case FlowMapping => Is(tokens, i, FlowMappingEndToken)
  }

  // The end of the collection, at once or after a separator, or one more entry.
  lemma TurnSplits(tokens: seq<Token>, c: Config, s: Shape, first: bool)
    requires c.states != [] && (s != Indentless ==> c.marks > 0) && Turn(tokens, c, s, first).Gives?
    ensures var o, k := Turn(tokens, c, s, first), if s == Indentless then 0 else 1;
      if AtEndOf(tokens, c.pos, s) then o.next == Ended(c, s, k) && c.pos < |tokens|
      else if IsFlow(s) && !first then
        Is(tokens, c.pos, FlowEntryToken) &&
        (if AtEndOf(tokens, c.pos + 1, s) then o.next == Ended(c, s, 2) else o == Past(tokens, c.(pos := c.pos + 1), s))
      else o == Past(tokens, c, s)
  {
    hide ThenNode, ThenEmpty, FlowAfterKeyStep;
  }

  lemma {:induction false} EntriesBack(tokens: seq<Token>, c: Config, s: Shape, first: bool, events: seq<Event>, d: Config)
    returns (entries: seq<Entry>, trailing: bool, rest: seq<Event>)
    requires AllTidy(tokens) && c.states != [] && (s != Indentless ==> c.marks > 0)
    requires GoesFrom(tokens, Turn(tokens, c, s, first), events, d)
    ensures EntriesFound(tokens, c, s, entries, trailing, first, rest, d) && |rest| < |events|
    decreases |events|, 7
  {
    hide *;
    FromGives(tokens, Turn(tokens, c, s, first), events, d);
    TurnSplits(tokens, c, s, first);
    if AtEndOf(tokens, c.pos, s) {
      entries, trailing, rest := [], false, events[1..];
      EndsHere(tokens, c, s, first, rest, d);
    } else if IsFlow(s) && !first && AtEndOf(tokens, c.pos + 1, s) {
      entries, trailing, rest := [], true, events[1..];
      FlowOf(s);
      EndsAfter(tokens, c, s, rest, d);
    } else {
      var e := c.(pos := c.pos + if IsFlow(s) && !first then 1 else 0);
      var one, more;
      one, more := OneBack(tokens, e, s, events, d);
      OneMeans(tokens, e, s, one, more, d);
      var c' := e.(pos := e.pos + |OneTokens(s, one)|, state := EntryState(s));
      FirstNotEnd(s);
      GoesStep(tokens, c', more, d);
      StepTurns(tokens, c', s);
      var others;
      others, trailing, rest := EntriesBack(tokens, c', s, false, more, d);
      entries := [one] + others;
      MoreFound(tokens, c, s, first, one, more, others, trailing, rest, d);
    }
  }

  lemma EndsHere(tokens: seq<Token>, c: Config, s: Shape, first: bool, rest: seq<Event>, d: Config)
    requires AllTidy(tokens) && c.states != [] && (s != Indentless ==> c.marks > 0) && AtEndOf(tokens, c.pos, s) && c.pos < |tokens|
    requires Goes(tokens, Ended(c, s, if s == Indentless then 0 else 1), rest, d)
    ensures EntriesFound(tokens, c, s, [], false, first, rest, d)
  {
    hide Goes, Stand;
    ClosingStands(tokens, c.pos, s, first);
  }

  lemma ClosingStands(tokens: seq<Token>, i: nat, s: Shape, first: bool)
    requires AllTidy(tokens) && AtEndOf(tokens, i, s) && i < |tokens|
    ensures var ts := EntryTokens(s, [], false, first) + Closing(s); Stand(tokens, i, ts) && |ts| == if s == Indentless then 0 else 1
  {
    hide Stand;
    assert EntryTokens(s, [], false, first) + Closing(s) == Closing(s);
    if s == Indentless {
      StandNone(tokens, i);
    } else {
      StandAt(tokens, i, Closing(s)[0].kind);
    }
  }

  lemma EndsAfter(tokens: seq<Token>, c: Config, s: Shape, rest: seq<Event>, d: Config)
    requires AllTidy(tokens) && c.states != [] && c.marks > 0 && IsFlow(s) && Is(tokens, c.pos, FlowEntryToken) && AtEndOf(tokens, c.pos + 1, s)
    requires Goes(tokens, Ended(c, s, 2), rest, d)
    ensures EntriesFound(tokens, c, s, [], true, false, rest, d)
  {
    hide Goes, Stand;
    StandAt(tokens, c.pos, FlowEntryToken);
    StandAt(tokens, c.pos + 1, Closing(s)[0].kind);
    StandJoin(tokens, c.pos, [Sign(FlowEntryToken)], Closing(s));
  }

  // One entry from e on, and the state after it.
  ghost predicate OneFound(tokens: seq<Token>, e: Config, s: Shape, one: Entry, rest: seq<Event>, d: Config) {
    && DerivedOne(s, one, false) && SupportedOne(e.tags, s, one, false) && Stand(tokens, e.pos, OneTokens(s, one))
    && (s == Indentless ==> Is(tokens, e.pos, BlockEntryToken))
    && Goes(tokens, e.(pos := e.pos + |OneTokens(s, one)|, state := EntryState(s)), rest, d)
  }

  lemma OneMeans(tokens: seq<Token>, e: Config, s: Shape, one: Entry, rest: seq<Event>, d: Config)
    requires OneFound(tokens, e, s, one, rest, d)
    ensures DerivedOne(s, one, false) && SupportedOne(e.tags, s, one, false) && Stand(tokens, e.pos, OneTokens(s, one))
    ensures s == Indentless ==> Is(tokens, e.pos, BlockEntryToken)
    ensures Goes(tokens, e.(pos := e.pos + |OneTokens(s, one)|, state := EntryState(s)), rest, d)
  {
    hide Goes, DerivedOne, SupportedOne, Stand;
  }

  lemma OneIsFound(tokens: seq<Token>, e: Config, s: Shape, one: Entry, rest: seq<Event>, d: Config)
    requires DerivedOne(s, one, false) && SupportedOne(e.tags, s, one, false) && Stand(tokens, e.pos, OneTokens(s, one))
    requires s == Indentless ==> Is(tokens, e.pos, BlockEntryToken)
    requires Goes(tokens, e.(pos := e.pos + |OneTokens(s, one)|, state := EntryState(s)), rest, d)
    ensures OneFound(tokens, e, s, one, rest, d)
  {
    hide Goes, DerivedOne, SupportedOne, Stand;
  }

  // Such an entry can stand in front of any others.
  lemma OneAnywhere(tags: seq<TagDirective>, s: Shape, one: Entry, keyless: bool, lastSeparated: bool)
    requires DerivedOne(s, one, false) && SupportedOne(tags, s, one, false)
    ensures DerivedOne(s, one, keyless) && SupportedOne(tags, s, one, lastSeparated)
  {
    hide Derived, Optional, Supported;
  }

  lemma MoreFound(tokens: seq<Token>, c: Config, s: Shape, first: bool, one: Entry, more: seq<Event>, others: seq<Entry>, trailing: bool,
                  rest: seq<Event>, d: Config)
    requires AllTidy(tokens) && c.states != [] && (s != Indentless ==> c.marks > 0) && (IsFlow(s) && !first ==> Is(tokens, c.pos, FlowEntryToken))
    requires var e := c.(pos := c.pos + if IsFlow(s) && !first then 1 else 0);
      && OneFound(tokens, e, s, one, more, d)
      && EntriesFound(tokens, e.(pos := e.pos + |OneTokens(s, one)|, state := EntryState(s)), s, others, trailing, false, rest, d)
    ensures EntriesFound(tokens, c, s, [one] + others, trailing, first, rest, d)
  {
    hide *;
    var e := c.(pos := c.pos + if IsFlow(s) && !first then 1 else 0);
    var c' := e.(pos := e.pos + |OneTokens(s, one)|, state := EntryState(s));
    OneMeans(tokens, e, s, one, more, d);
    FoundMeans(tokens, c', s, others, trailing, false, rest, d);
    var entries := [one] + others;
    OneAnywhere(c.tags, s, one, false, |entries| == 1 && trailing);
    AllMore(c.tags, s, one, others, trailing);
    MoreStand(tokens, c.pos, s, first, one, others, trailing);
    var n := |EntryTokens(s, entries, trailing, first) + Closing(s)|;
    EndedSame(c, c', s, n, |EntryTokens(s, others, trailing, false) + Closing(s)|);
    EntriesAreFound(tokens, c, s, entries, trailing, first, rest, d);
  }

  lemma MoreStand(tokens: seq<Token>, i: nat, s: Shape, first: bool, one: Entry, others: seq<Entry>, trailing: bool)
    requires AllTidy(tokens) && (IsFlow(s) && !first ==> Is(tokens, i, FlowEntryToken))
    requires var j := i + if IsFlow(s) && !first then 1 else 0;
      Stand(tokens, j, OneTokens(s, one)) && Stand(tokens, j + |OneTokens(s, one)|, EntryTokens(s, others, trailing, false) + Closing(s))
    ensures var ts := EntryTokens(s, [one] + others, trailing, first) + Closing(s);
      Stand(tokens, i, ts) &&
      i + |ts| == i + (if IsFlow(s) && !first then 1 else 0) + |OneTokens(s, one)| + |EntryTokens(s, others, trailing, false) + Closing(s)|
  {
    hide *;
    var j := i + if IsFlow(s) && !first then 1 else 0;
    var entries, inner := [one] + others, EntryTokens(s, others, trailing, false) + Closing(s);
    assert entries[0] == one && entries[1..] == others;
    EntryTokensAre(s, entries, trailing, first);
    StandJoin(tokens, j, OneTokens(s, one), inner);
    if IsFlow(s) && !first {
      SeparatorStands(tokens, i);
      StandJoin(tokens, i, [Sign(FlowEntryToken)], OneTokens(s, one) + inner);
    } else {
      assert [] + (OneTokens(s, one) + inner) == OneTokens(s, one) + inner;
    }
  }

  lemma SeparatorStands(tokens: seq<Token>, i: nat)
    requires AllTidy(tokens) && Is(tokens, i, FlowEntryToken)
    ensures Stand(tokens, i, [Sign(FlowEntryToken)])
  {
    StandAt(tokens, i, FlowEntryToken);
  }

  lemma EntriesAreFound(tokens: seq<Token>, c: Config, s: Shape, entries: seq<Entry>, trailing: bool, first: bool, rest: seq<Event>, d: Config)
    requires c.states != [] && (s != Indentless ==> c.marks > 0) && entries != []
    requires DerivedAll(s, entries, false) && SupportedAll(c.tags, s, entries, trailing) && (trailing ==> IsFlow(s))
    requires Stand(tokens, c.pos, EntryTokens(s, entries, trailing, first) + Closing(s))
    requires Goes(tokens, Ended(c, s, |EntryTokens(s, entries, trailing, first) + Closing(s)|), rest, d)
    ensures EntriesFound(tokens, c, s, entries, trailing, first, rest, d)
  {
    hide Goes, DerivedAll, SupportedAll, Stand;
  }

  lemma AllMore(tags: seq<TagDirective>, s: Shape, one: Entry, others: seq<Entry>, trailing: bool)
    requires DerivedOne(s, one, false) && SupportedOne(tags, s, one, |[one] + others| == 1 && trailing)
    requires DerivedAll(s, others, false) && SupportedAll(tags, s, others, trailing)
    ensures DerivedAll(s, [one] + others, false) && SupportedAll(tags, s, [one] + others, trailing)
  {
    hide DerivedOne, SupportedOne;
    assert ([one] + others)[1..] == others;
    AnyKeyless(s, others, Complete(one));
  }

  lemma AnyKeyless(s: Shape, entries: seq<Entry>, keyless: bool)
    requires DerivedAll(s, entries, false)
    ensures DerivedAll(s, entries, keyless)
  {
    hide Derived, Optional;
  }

  // ---------- one entry ----------

  // An optional node and then q.
  predicate SlotOut(tokens: seq<Token>, e: Config, q: PState, block: bool, indentless: bool, o: Outcome) {
    o == ThenNode(tokens, e, q, block, indentless) || o == ThenEmpty(e, q)
  }

  // The node from e on, and q after it.
  ghost predicate SlotFound(tokens: seq<Token>, e: Config, n: Node, q: PState, rest: seq<Event>, d: Config) {
    && Supported(e.tags, n) && Stand(tokens, e.pos, Tokens(n)) && e.pos + |Tokens(n)| <= |tokens|
    && Goes(tokens, e.(pos := e.pos + |Tokens(n)|, state := q), rest, d)
  }

  lemma SlotMeans(tokens: seq<Token>, e: Config, n: Node, q: PState, rest: seq<Event>, d: Config)
    requires SlotFound(tokens, e, n, q, rest, d)
    ensures Supported(e.tags, n) && Stand(tokens, e.pos, Tokens(n)) && e.pos + |Tokens(n)| <= |tokens|
    ensures Goes(tokens, e.(pos := e.pos + |Tokens(n)|, state := q), rest, d)
  {
    hide Goes, Supported, Stand;
  }

  lemma {:induction false} ThenBack(tokens: seq<Token>, e: Config, q: PState, block: bool, indentless: bool, events: seq<Event>, d: Config)
    returns (n: Node, rest: seq<Event>)
    requires AllTidy(tokens) && GoesFrom(tokens, ThenNode(tokens, e, q, block, indentless), events, d)
    ensures Derived(n, block, indentless) && SlotFound(tokens, e, n, q, rest, d) && |rest| < |events|
    decreases |events|, 2
  {
    hide *;
    var c := e.(states := e.states + [q]);
    ThenIs(tokens, e, q, block, indentless);
    n, rest := NodeBack(tokens, c, block, indentless, events, d);
    NodeMeans(tokens, c, n, block, indentless, rest, d);
    FollowedThen(e, q, |Tokens(n)|);
    SlotIsFound(tokens, e, n, q, rest, d);
  }

  lemma ThenIs(tokens: seq<Token>, e: Config, q: PState, block: bool, indentless: bool)
    ensures ThenNode(tokens, e, q, block, indentless) == NodeStep(tokens, e.(states := e.states + [q]), block, indentless)
  {
    hide NodeStep;
  }

  lemma FollowedThen(e: Config, q: PState, n: nat)
    ensures Followed(e.(states := e.states + [q]), n) == e.(pos := e.pos + n, state := q)
  {
    assert (e.states + [q])[..|e.states|] == e.states;
  }

  lemma SlotIsFound(tokens: seq<Token>, e: Config, n: Node, q: PState, rest: seq<Event>, d: Config)
    requires Supported(e.tags, n) && Stand(tokens, e.pos, Tokens(n))
    requires Goes(tokens, e.(pos := e.pos + |Tokens(n)|, state := q), rest, d)
    ensures SlotFound(tokens, e, n, q, rest, d)
  {
    hide Goes, Supported, Tokens;
  }

  lemma {:induction false} SlotBack(tokens: seq<Token>, e: Config, q: PState, block: bool, indentless: bool, o: Outcome, events: seq<Event>, d: Config)
    returns (n: Node, rest: seq<Event>)
    requires AllTidy(tokens) && e.pos <= |tokens| && SlotOut(tokens, e, q, block, indentless, o) && GoesFrom(tokens, o, events, d)
    ensures Optional(n, block, indentless) && SlotFound(tokens, e, n, q, rest, d) && |rest| < |events|
    decreases |events|, 3
  {
    hide *;
    SlotOutIs(tokens, e, q, block, indentless, o);
    if o == ThenNode(tokens, e, q, block, indentless) {
      n, rest := ThenBack(tokens, e, q, block, indentless, events, d);
    } else {
      FromGives(tokens, o, events, d);
      n, rest := Missing, events[1..];
      EmptySlot(tokens, e, q, rest, d);
    }
    OptionalIs(n, block, indentless);
  }

  lemma SlotOutIs(tokens: seq<Token>, e: Config, q: PState, block: bool, indentless: bool, o: Outcome)
    requires SlotOut(tokens, e, q, block, indentless, o)
    ensures o == ThenNode(tokens, e, q, block, indentless) || o == ThenEmpty(e, q)
  {
    hide ThenNode;
  }

  lemma OptionalIs(n: Node, block: bool, indentless: bool)
    ensures n.Missing? || Derived(n, block, indentless) ==> Optional(n, block, indentless)
  {
    hide Derived;
  }

  lemma EmptySlot(tokens: seq<Token>, e: Config, q: PState, rest: seq<Event>, d: Config)
    requires e.pos <= |tokens| && ThenEmpty(e, q).Gives? && Goes(tokens, ThenEmpty(e, q).next, rest, d)
    ensures SlotFound(tokens, e, Missing, q, rest, d)
  {
    hide Goes;
    StandNone(tokens, e.pos);
  }

  lemma {:induction false} OneBack(tokens: seq<Token>, e: Config, s: Shape, events: seq<Event>, d: Config) returns (one: Entry, rest: seq<Event>)
    requires AllTidy(tokens) && e.states != [] && !AtEndOf(tokens, e.pos, s) && GoesFrom(tokens, Past(tokens, e, s), events, d)
    ensures OneFound(tokens, e, s, one, rest, d) && |rest| < |events|
    decreases |events|, 6
  {
    hide *;
    FromGives(tokens, Past(tokens, e, s), events, d);
    if s == BlockSequence || s == Indentless {
      one, rest := BlockItemBack(tokens, e, s, events, d);
    } else if s == BlockMapping || Is(tokens, e.pos, KeyToken) {
      if s != BlockMapping { FlowElse(s); }
      one, rest := PairBack(tokens, e, s, events, d);
    } else {
      FlowElse(s);
      one, rest := FlowItemBack(tokens, e, s, events, d);
    }
  }

  lemma FlowElse(s: Shape)
    requires s != BlockSequence && s != Indentless && s != BlockMapping
    ensures IsFlow(s)
  {
  }

  lemma BlockItemSplits(tokens: seq<Token>, e: Config, s: Shape)
    requires (s == BlockSequence || s == Indentless) && !AtEndOf(tokens, e.pos, s) && Past(tokens, e, s).Gives?
    ensures Is(tokens, e.pos, BlockEntryToken) && e.pos + 1 <= |tokens|
    ensures SlotOut(tokens, e.(pos := e.pos + 1), EntryState(s), true, false, Past(tokens, e, s))
  {
    hide ThenNode;
  }

  lemma {:induction false} BlockItemBack(tokens: seq<Token>, e: Config, s: Shape, events: seq<Event>, d: Config) returns (one: Entry, rest: seq<Event>)
    requires AllTidy(tokens) && (s == BlockSequence || s == Indentless) && !AtEndOf(tokens, e.pos, s) && GoesFrom(tokens, Past(tokens, e, s), events, d)
    ensures OneFound(tokens, e, s, one, rest, d) && |rest| < |events|
    decreases |events|, 4
  {
    hide *;
    FromGives(tokens, Past(tokens, e, s), events, d);
    BlockItemSplits(tokens, e, s);
    var e' := e.(pos := e.pos + 1);
    var n;
    n, rest := SlotBack(tokens, e', EntryState(s), true, false, Past(tokens, e, s), events, d);
    SlotMeans(tokens, e', n, EntryState(s), rest, d);
    one := Item(n);
    ItemStands(tokens, e.pos, s, n);
    ItemIs(e.tags, s, n);
    OneIsFound(tokens, e, s, one, rest, d);
  }

  lemma ItemStands(tokens: seq<Token>, i: nat, s: Shape, n: Node)
    requires AllTidy(tokens) && (s == BlockSequence || s == Indentless) && Is(tokens, i, BlockEntryToken) && Stand(tokens, i + 1, Tokens(n))
    ensures Stand(tokens, i, OneTokens(s, Item(n))) && |OneTokens(s, Item(n))| == 1 + |Tokens(n)|
  {
    hide *;
    OneItemTokens(s, n);
    StandAt(tokens, i, BlockEntryToken);
    StandJoin(tokens, i, [Sign(BlockEntryToken)], Tokens(n));
  }

  lemma OneItemTokens(s: Shape, n: Node)
    requires s == BlockSequence || s == Indentless
    ensures OneTokens(s, Item(n)) == [Sign(BlockEntryToken)] + Tokens(n)
  {
    hide Tokens;
  }

  lemma ItemIs(tags: seq<TagDirective>, s: Shape, n: Node)
    requires (s == BlockSequence || s == Indentless) && Optional(n, true, false) && Supported(tags, n)
    ensures DerivedOne(s, Item(n), false) && SupportedOne(tags, s, Item(n), false)
  {
    hide Optional, Supported;
  }

  // ---------- flow items ----------

  lemma FlowItemSplits(tokens: seq<Token>, e: Config, s: Shape)
    requires IsFlow(s) && !AtEndOf(tokens, e.pos, s) && !Is(tokens, e.pos, KeyToken)
    ensures Past(tokens, e, s) == ThenNode(tokens, e, if s == FlowSequence then AtFlowSequenceEntry else AtFlowMappingEmptyValue, false, false)
  {
    hide ThenNode;
  }

  lemma EmptyValue(tokens: seq<Token>, m: Config)
    requires m.state == AtFlowMappingEmptyValue && Step(tokens, m).Gives?
    ensures Step(tokens, m).next == m.(state := AtFlowMappingKey)
  {
  }

  lemma {:induction false} FlowItemBack(tokens: seq<Token>, e: Config, s: Shape, events: seq<Event>, d: Config) returns (one: Entry, rest: seq<Event>)
    requires AllTidy(tokens) && IsFlow(s) && !AtEndOf(tokens, e.pos, s) && !Is(tokens, e.pos, KeyToken)
    requires GoesFrom(tokens, Past(tokens, e, s), events, d)
    ensures OneFound(tokens, e, s, one, rest, d) && |rest| < |events|
    decreases |events|, 4
  {
    hide *;
    FlowItemSplits(tokens, e, s);
    FlowOf(s);
    var q := if s == FlowSequence then AtFlowSequenceEntry else AtFlowMappingEmptyValue;
    var n;
    n, rest := ThenBack(tokens, e, q, false, false, events, d);
    SlotMeans(tokens, e, n, q, rest, d);
    one := Item(n);
    FlowItemIs(e.tags, s, n);
    if s == FlowMapping {
      var m := e.(pos := e.pos + |Tokens(n)|, state := q);
      GoesStep(tokens, m, rest, d);
      FromGives(tokens, Step(tokens, m), rest, d);
      EmptyValue(tokens, m);
      rest := rest[1..];
    }
    OneIsFound(tokens, e, s, one, rest, d);
  }

  lemma FlowOf(s: Shape)
    requires IsFlow(s)
    ensures s == FlowSequence || s == FlowMapping
    ensures EntryState(FlowSequence) == AtFlowSequenceEntry && EntryState(FlowMapping) == AtFlowMappingKey
  {
  }

  lemma FlowItemIs(tags: seq<TagDirective>, s: Shape, n: Node)
    requires IsFlow(s) && Derived(n, false, false) && Supported(tags, n)
    ensures DerivedOne(s, Item(n), false) && SupportedOne(tags, s, Item(n), false) && OneTokens(s, Item(n)) == Tokens(n)
  {
    hide Derived, Supported, Tokens;
  }

  // ---------- pairs ----------

  // What the parser does after the key indicator.
  lemma PairSplits(tokens: seq<Token>, e: Config, s: Shape)
    requires (s == BlockMapping || (IsFlow(s) && Is(tokens, e.pos, KeyToken))) && !AtEndOf(tokens, e.pos, s) && Past(tokens, e, s).Gives?
    ensures Is(tokens, e.pos, KeyToken) && HasPairs(s) && e.pos + 1 <= |tokens|
    ensures if s == FlowSequence then Past(tokens, e, s).next == e.(pos := e.pos + 1, state := AtFlowSequenceEntryMappingKey)
            else SlotOut(tokens, e.(pos := e.pos + 1), ValueState(s), !IsFlow(s), !IsFlow(s), Past(tokens, e, s))
  {
    hide ThenNode;
  }

  lemma PairKeySplits(tokens: seq<Token>, c: Config)
    requires c.state == AtFlowSequenceEntryMappingKey && Step(tokens, c).Gives? && !Swallows(tokens, c)
    ensures Step(tokens, c) == ThenNode(tokens, c, AtFlowSequenceEntryMappingValue, false, false)
  {
    hide ThenNode;
  }

  // The key after its indicator.
  lemma {:induction false} KeyBack(tokens: seq<Token>, e: Config, s: Shape, events: seq<Event>, d: Config) returns (key: Node, rest: seq<Event>)
    requires AllTidy(tokens) && (s == BlockMapping || (IsFlow(s) && Is(tokens, e.pos, KeyToken))) && !AtEndOf(tokens, e.pos, s)
    requires GoesFrom(tokens, Past(tokens, e, s), events, d)
    ensures Is(tokens, e.pos, KeyToken) && HasPairs(s) && Optional(key, !IsFlow(s), !IsFlow(s)) && (s == FlowSequence ==> !key.Missing?)
    ensures SlotFound(tokens, e.(pos := e.pos + 1), key, ValueState(s), rest, d) && |rest| < |events|
    decreases |events|, 4
  {
    hide *;
    FromGives(tokens, Past(tokens, e, s), events, d);
    PairSplits(tokens, e, s);
    var e' := e.(pos := e.pos + 1);
    if s == FlowSequence {
      FlowSequenceHas();
      var c := e.(pos := e.pos + 1, state := AtFlowSequenceEntryMappingKey);
      GoesStep(tokens, c, events[1..], d);
      FromGives(tokens, Step(tokens, c), events[1..], d);
      PairKeySplits(tokens, c);
      key, rest := ThenBack(tokens, c, AtFlowSequenceEntryMappingValue, false, false, events[1..], d);
      SlotMeans(tokens, c, key, AtFlowSequenceEntryMappingValue, rest, d);
      SlotIsFound(tokens, e', key, ValueState(s), rest, d);
      OptionalIs(key, false, false);
      NotMissing(key);
    } else {
      key, rest := SlotBack(tokens, e', ValueState(s), !IsFlow(s), !IsFlow(s), Past(tokens, e, s), events, d);
    }
  }

  lemma FlowSequenceHas()
    ensures IsFlow(FlowSequence) && ValueState(FlowSequence) == AtFlowSequenceEntryMappingValue && DoneState(FlowSequence) == AtFlowSequenceEntryMappingEnd
  {
  }

  lemma NotMissing(n: Node)
    requires Derived(n, false, false)
    ensures !n.Missing?
  {
  }

  lemma ValueSplits(tokens: seq<Token>, m: Config, s: Shape)
    requires HasPairs(s) && m.state == ValueState(s) && Step(tokens, m).Gives?
    ensures m.pos < |tokens|
    ensures if Is(tokens, m.pos, ValueToken) then SlotOut(tokens, m.(pos := m.pos + 1), DoneState(s), !IsFlow(s), !IsFlow(s), Step(tokens, m))
            else Step(tokens, m).next == m.(state := DoneState(s))
  {
    hide ThenNode;
  }

  // The value, with its indicator or without.
  lemma {:induction false} ValueBack(tokens: seq<Token>, m: Config, s: Shape, events: seq<Event>, d: Config)
    returns (hasValue: bool, value: Node, rest: seq<Event>)
    requires AllTidy(tokens) && HasPairs(s) && m.state == ValueState(s) && GoesFrom(tokens, Step(tokens, m), events, d)
    ensures (if hasValue then Optional(value, !IsFlow(s), !IsFlow(s)) else value.Missing?) && Supported(m.tags, value) && |rest| < |events|
    ensures var ts := if hasValue then [Sign(ValueToken)] + Tokens(value) else [];
      Stand(tokens, m.pos, ts) && Goes(tokens, m.(pos := m.pos + |ts|, state := DoneState(s)), rest, d)
    decreases |events|, 4
  {
    hide *;
    FromGives(tokens, Step(tokens, m), events, d);
    ValueSplits(tokens, m, s);
    hasValue := Is(tokens, m.pos, ValueToken);
    if hasValue {
      ValueSign(tokens, m.pos);
      value, rest := SlotBack(tokens, m.(pos := m.pos + 1), DoneState(s), !IsFlow(s), !IsFlow(s), Step(tokens, m), events, d);
      SlotMeans(tokens, m.(pos := m.pos + 1), value, DoneState(s), rest, d);
      StandJoin(tokens, m.pos, [Sign(ValueToken)], Tokens(value));
    } else {
      value, rest := Missing, events[1..];
      StandNone(tokens, m.pos);
      MissingIs(m.tags);
    }
  }

  lemma ValueSign(tokens: seq<Token>, i: nat)
    requires AllTidy(tokens) && Is(tokens, i, ValueToken)
    ensures Stand(tokens, i, [Sign(ValueToken)]) && i + 1 <= |tokens|
  {
    StandAt(tokens, i, ValueToken);
  }

  lemma KeySign(tokens: seq<Token>, i: nat)
    requires AllTidy(tokens) && Is(tokens, i, KeyToken)
    ensures Stand(tokens, i, [Sign(KeyToken)])
  {
    StandAt(tokens, i, KeyToken);
  }

  lemma MissingIs(tags: seq<TagDirective>)
    ensures Supported(tags, Missing) && Missing.Missing?
  {
  }

  lemma PairEnds(tokens: seq<Token>, m: Config)
    requires m.state == AtFlowSequenceEntryMappingEnd && Step(tokens, m).Gives?
    ensures Step(tokens, m).next == m.(state := AtFlowSequenceEntry)
  {
  }

  lemma {:induction false} PairBack(tokens: seq<Token>, e: Config, s: Shape, events: seq<Event>, d: Config) returns (one: Entry, rest: seq<Event>)
    requires AllTidy(tokens) && (s == BlockMapping || (IsFlow(s) && Is(tokens, e.pos, KeyToken))) && !AtEndOf(tokens, e.pos, s)
    requires GoesFrom(tokens, Past(tokens, e, s), events, d)
    ensures OneFound(tokens, e, s, one, rest, d) && |rest| < |events|
    decreases |events|, 5
  {
    hide *;
    var key, more, hasValue, value;
    key, more := KeyBack(tokens, e, s, events, d);
    var e' := e.(pos := e.pos + 1);
    SlotMeans(tokens, e', key, ValueState(s), more, d);
    var m := e'.(pos := e'.pos + |Tokens(key)|, state := ValueState(s));
    ValueNotEnd(s);
    GoesStep(tokens, m, more, d);
    hasValue, value, rest := ValueBack(tokens, m, s, more, d);
    one := Pair(true, key, hasValue, value);
    var ts := if hasValue then [Sign(ValueToken)] + Tokens(value) else [];
    KeySign(tokens, e.pos);
    StandJoin(tokens, e.pos, [Sign(KeyToken)], Tokens(key));
    StandJoin(tokens, e.pos, [Sign(KeyToken)] + Tokens(key), ts);
    PairTokens(s, one);
    PairIs(e.tags, s, one);
    if s == FlowSequence {
      FlowSequenceHas();
      FlowOf(s);
      var m' := m.(pos := m.pos + |ts|, state := DoneState(s));
      GoesStep(tokens, m', rest, d);
      FromGives(tokens, Step(tokens, m'), rest, d);
      PairEnds(tokens, m');
      rest := rest[1..];
    } else {
      DoneIs(s);
    }
    OneIsFound(tokens, e, s, one, rest, d);
  }

  lemma ValueNotEnd(s: Shape)
    ensures ValueState(s) != AtEnd && DoneState(s) != AtEnd
  {
  }

  lemma DoneIs(s: Shape)
    requires s != FlowSequence
    ensures DoneState(s) == EntryState(s)
  {
  }

  lemma PairTokens(s: Shape, one: Entry)
    requires one.Pair? && one.hasKey
    ensures OneTokens(s, one) == [Sign(KeyToken)] + Tokens(one.key) + (if one.hasValue then [Sign(ValueToken)] + Tokens(one.value) else [])
  {
    hide Tokens;
  }

  lemma PairIs(tags: seq<TagDirective>, s: Shape, one: Entry)
    requires one.Pair? && one.hasKey && HasPairs(s) && Optional(one.key, !IsFlow(s), !IsFlow(s)) && (s == FlowSequence ==> !one.key.Missing?)
    requires if one.hasValue then Optional(one.value, !IsFlow(s), !IsFlow(s)) else one.value.Missing?
    requires Supported(tags, one.key) && Supported(tags, one.value)
    ensures DerivedOne(s, one, false) && SupportedOne(tags, s, one, false)
    ensures s != Indentless
  {
    hide Optional, Supported;
  }

  // ---------- documents ----------

  lemma {:induction false} DirectivesBack(tokens: seq<Token>, i: nat, tags: seq<TagDirective>, version: bool) returns (ds: seq<Directive>)
    requires AllTidy(tokens) && DirectivesAt(tokens, i, tags, version).Directives?
    ensures Stand(tokens, i, DirectiveTokens(ds)) && SupportedAfter(tags, version, ds)
    ensures DirectivesAt(tokens, i, tags, version) == Directives(WithDefaults(tags + Handles(ds)), i + |DirectiveTokens(ds)|)
    decreases |tokens| - i
  {
    hide WithDefaults, SupportedAfter, Stand, Defined;
    if Is(tokens, i, VersionDirectiveToken) || Is(tokens, i, TagDirectiveToken) {
      var t := tokens[i];
      assert Tidy(t);
      var one := if t.kind == VersionDirectiveToken then Version(t.major, t.minor) else Handle(t.value, t.prefix);
      var tags' := if one.Handle? then tags + [TagDirective(one.handle, one.prefix)] else tags;
      var more := DirectivesBack(tokens, i + 1, tags', version || one.Version?);
      ds := [one] + more;
      assert ds[1..] == more && DirectiveToken(one) == t;
      OneDirective(tags, version, ds);
      StandToken(tokens, i);
      StandJoin(tokens, i, [t], DirectiveTokens(more));
      assert tags + Handles(ds) == tags' + Handles(more);
    } else {
      ds := [];
      NoDirectivesLeft(tags, version);
      StandNone(tokens, i);
      assert tags + Handles(ds) == tags;
    }
  }

  lemma FirstDirectives(ds: seq<Directive>)
    requires SupportedAfter([], false, ds)
    ensures SupportedDirectives(ds)
  {
  }

  lemma {:induction false} EndsBack(tokens: seq<Token>, i: nat) returns (n: nat)
    requires AllTidy(tokens) && i <= |tokens|
    ensures PastDocumentEnds(tokens, i) == i + n && Stand(tokens, i, EndTokens(n)) && !Is(tokens, i + n, DocumentEndToken) && |EndTokens(n)| == n
    ensures n > 0 ==> Is(tokens, i, DocumentEndToken)
    decreases |tokens| - i
  {
    if Is(tokens, i, DocumentEndToken) {
      n := EndsBack(tokens, i + 1);
      n := n + 1;
      hide Stand;
      StandAt(tokens, i, DocumentEndToken);
      StandJoin(tokens, i, [Sign(DocumentEndToken)], EndTokens(n - 1));
    } else {
      n := 0;
      StandNone(tokens, i);
    }
  }

  // The state after the start of a document: where its root is, and what is known.
  predicate Opened(h: Config, e: Config, explicit: bool, tags: seq<TagDirective>, n: nat) {
    h == e.(pos := e.pos + n, state := if explicit then AtDocumentContent else AtBlockNode, states := [AtDocumentEnd], tags := tags)
  }

  // The head of a document, or the end of the stream.
  lemma HeadBack(tokens: seq<Token>, e: Config, first: bool, o: Outcome) returns (explicit: bool, ds: seq<Directive>)
    requires AllTidy(tokens) && Between(e, first) && o.Gives? && e.pos < |tokens| && !Is(tokens, e.pos, StreamEndToken)
    requires o == if first && !ExplicitStart(tokens, e.pos) then
        Gives(DocumentStart, e.(state := AtBlockNode, states := [AtDocumentEnd], tags := WithDefaults([])))
      else ExplicitStep(tokens, e)
    ensures var doc := Document(explicit, ds, Missing, 0);
      && Stand(tokens, e.pos, HeadTokens(doc)) && Opened(o.next, e, explicit, TagsOf(doc), |HeadTokens(doc)|) && SupportedDirectives(ds)
      && (!explicit ==> first && ds == [])
  {
    hide Stand, WithDefaults, TagsOf, DirectivesAt, ExplicitStep;
    if first && !ExplicitStart(tokens, e.pos) {
      explicit, ds := false, [];
      TagsAgree(Document(false, [], Missing, 0));
      StandNone(tokens, e.pos);
    } else {
      explicit := true;
      ds := ExplicitBack(tokens, e, o);
    }
  }

  lemma ExplicitBack(tokens: seq<Token>, e: Config, o: Outcome) returns (ds: seq<Directive>)
    requires AllTidy(tokens) && e.states == [] && e.tags == [] && o.Gives? && o == ExplicitStep(tokens, e)
    ensures var doc := Document(true, ds, Missing, 0);
      Stand(tokens, e.pos, HeadTokens(doc)) && Opened(o.next, e, true, TagsOf(doc), |HeadTokens(doc)|) && SupportedDirectives(ds)
  {
    hide AllTidy, Stand, WithDefaults, TagsOf, DirectivesAt, DirectiveTokens, SupportedDirectives;
    ds := DirectivesBack(tokens, e.pos, [], false);
    FirstDirectives(ds);
    assert [] + Handles(ds) == Handles(ds);
    TagsAgree(Document(true, ds, Missing, 0));
    StandAt(tokens, e.pos + |DirectiveTokens(ds)|, DocumentStartToken);
    StandJoin(tokens, e.pos, DirectiveTokens(ds), [Sign(DocumentStartToken)]);
    assert [] + [AtDocumentEnd] == [AtDocumentEnd];
  }

  lemma StartSplits(tokens: seq<Token>, c: Config, first: bool, extra: nat)
    requires Between(c, first) && (if first then extra == 0 else PastDocumentEnds(tokens, c.pos) == c.pos + extra) && Step(tokens, c).Gives?
    ensures var e := c.(pos := c.pos + extra);
      && e.pos < |tokens|
      && if Is(tokens, e.pos, StreamEndToken) then Step(tokens, c).next == e.(pos := e.pos + 1, state := AtEnd)
         else Step(tokens, c) == if first && !ExplicitStart(tokens, e.pos)
           then Gives(DocumentStart, e.(state := AtBlockNode, states := [AtDocumentEnd], tags := WithDefaults([])))
           else ExplicitStep(tokens, e)
  {
    hide ExplicitStep, PastDocumentEnds, WithDefaults;
    assert [] + [AtDocumentEnd] == [AtDocumentEnd];
  }

  // The root of a document, which may be missing after a start indicator.
  lemma RootBack(tokens: seq<Token>, h: Config, explicit: bool, events: seq<Event>, d: Config) returns (root: Node, rest: seq<Event>)
    requires AllTidy(tokens) && h.state == (if explicit then AtDocumentContent else AtBlockNode) && h.states == [AtDocumentEnd] && h.pos <= |tokens|
    requires Goes(tokens, h, events, d)
    ensures if explicit then Optional(root, true, false) else Derived(root, true, false)
    ensures Supported(h.tags, root) && Stand(tokens, h.pos, Tokens(root)) && |rest| < |events|
    ensures Goes(tokens, h.(pos := h.pos + |Tokens(root)|, state := AtDocumentEnd, states := []), rest, d)
  {
    hide *;
    GoesStep(tokens, h, events, d);
    FromGives(tokens, Step(tokens, h), events, d);
    RootSplits(tokens, h, explicit);
    if Step(tokens, h) == NodeStep(tokens, h, true, false) {
      root, rest := NodeBack(tokens, h, true, false, events, d);
      NodeMeans(tokens, h, root, true, false, rest, d);
      OptionalIs(root, true, false);
      RootDone(h, |Tokens(root)|);
    } else {
      root, rest := Missing, events[1..];
      StandNone(tokens, h.pos);
      MissingIs(h.tags);
      OptionalIs(root, true, false);
      NoRoot();
    }
  }

  lemma RootSplits(tokens: seq<Token>, h: Config, explicit: bool)
    requires h.state == (if explicit then AtDocumentContent else AtBlockNode) && h.states == [AtDocumentEnd] && Step(tokens, h).Gives?
    ensures Step(tokens, h) == NodeStep(tokens, h, true, false)
      || (explicit && Step(tokens, h).next == h.(state := AtDocumentEnd, states := []))
  {
    hide NodeStep;
  }

  lemma RootDone(h: Config, n: nat)
    requires h.states == [AtDocumentEnd]
    ensures Followed(h, n) == h.(pos := h.pos + n, state := AtDocumentEnd, states := [])
  {
  }

  lemma NoRoot()
    ensures Tokens(Missing) == []
  {
  }

  lemma OneEnd()
    ensures EndTokens(1) == [Sign(DocumentEndToken)]
  {
    assert EndTokens(0) == [];
  }

  lemma DocumentDone(tokens: seq<Token>, m: Config)
    requires AllTidy(tokens) && m.state == AtDocumentEnd && Step(tokens, m).Gives?
    ensures m.pos < |tokens|
    ensures var k := if Is(tokens, m.pos, DocumentEndToken) then 1 else 0;
      Step(tokens, m).next == m.(pos := m.pos + k, state := AtDocumentStart, tags := []) && Stand(tokens, m.pos, EndTokens(k))
  {
    hide Stand;
    if Is(tokens, m.pos, DocumentEndToken) {
      StandAt(tokens, m.pos, DocumentEndToken);
      OneEnd();
    } else {
      StandNone(tokens, m.pos);
    }
  }

  lemma {:induction false} EndsAdd(k: nat, n: nat)
    requires k <= 1
    ensures EndTokens(k + n) == EndTokens(k) + EndTokens(n)
  {
    assert EndTokens(1) == [Sign(DocumentEndToken)] + EndTokens(0);
    if k == 0 { assert [] + EndTokens(n) == EndTokens(n); }
  }

  // The documents from c on, after some ends of the one before.
  ghost predicate DocumentsFound(tokens: seq<Token>, c: Config, first: bool, extra: nat, docs: seq<Document>) {
    && DerivedStream(docs, first) && SupportedStream(docs) && Stand(tokens, c.pos, EndTokens(extra) + RestTokens(docs))
    && (first ==> extra == 0) && (extra > 0 ==> Is(tokens, c.pos, DocumentEndToken))
  }

  // One document from e on, and the place of its end.
  ghost predicate DocumentFound(tokens: seq<Token>, e: Config, first: bool, doc: Document, more: seq<Event>, d: Config) {
    && DerivedDocument(doc, first) && SupportedDocument(doc) && Stand(tokens, e.pos, HeadTokens(doc) + Tokens(doc.root))
    && Goes(tokens, e.(pos := e.pos + |HeadTokens(doc) + Tokens(doc.root)|, state := AtDocumentEnd, states := [], tags := TagsOf(doc)), more, d)
  }

  lemma DocumentMeans(tokens: seq<Token>, e: Config, first: bool, doc: Document, more: seq<Event>, d: Config)
    requires DocumentFound(tokens, e, first, doc, more, d)
    ensures DerivedDocument(doc, first) && SupportedDocument(doc) && Stand(tokens, e.pos, HeadTokens(doc) + Tokens(doc.root))
    ensures Goes(tokens, e.(pos := e.pos + |HeadTokens(doc) + Tokens(doc.root)|, state := AtDocumentEnd, states := [], tags := TagsOf(doc)), more, d)
  {
    hide Goes, DerivedDocument, SupportedDocument, Stand;
  }

  lemma DocumentBack(tokens: seq<Token>, e: Config, first: bool, o: Outcome, events: seq<Event>, d: Config) returns (doc: Document, more: seq<Event>)
    requires AllTidy(tokens) && Between(e, first) && e.pos < |tokens| && !Is(tokens, e.pos, StreamEndToken)
    requires o.Gives? && Goes(tokens, o.next, events, d)
    requires o == if first && !ExplicitStart(tokens, e.pos) then
        Gives(DocumentStart, e.(state := AtBlockNode, states := [AtDocumentEnd], tags := WithDefaults([])))
      else ExplicitStep(tokens, e)
    ensures DocumentFound(tokens, e, first, doc, more, d) && |more| < |events|
  {
    hide *;
    var explicit, ds := HeadBack(tokens, e, first, o);
    var head, h := Document(explicit, ds, Missing, 0), o.next;
    OpenedIs(tokens, h, e, head);
    var root;
    root, more := RootBack(tokens, h, explicit, events, d);
    doc := Document(explicit, ds, root, 0);
    SameHead(head, doc, first);
    StandJoin(tokens, e.pos, HeadTokens(doc), Tokens(root));
    DocumentIsFound(tokens, e, first, doc, more, d);
  }

  lemma OpenedIs(tokens: seq<Token>, h: Config, e: Config, head: Document)
    requires Opened(h, e, head.explicit, TagsOf(head), |HeadTokens(head)|) && Stand(tokens, e.pos, HeadTokens(head))
    ensures h == e.(pos := e.pos + |HeadTokens(head)|, state := if head.explicit then AtDocumentContent else AtBlockNode,
                    states := [AtDocumentEnd], tags := TagsOf(head))
    ensures h.pos <= |tokens|
  {
    hide TagsOf, HeadTokens;
  }

  lemma SameHead(head: Document, doc: Document, first: bool)
    requires doc == head.(root := doc.root) && SupportedDirectives(head.directives) && (!head.explicit ==> first && head.directives == [])
    requires if doc.explicit then Optional(doc.root, true, false) else Derived(doc.root, true, false)
    requires Supported(TagsOf(head), doc.root)
    ensures HeadTokens(doc) == HeadTokens(head) && TagsOf(doc) == TagsOf(head) && DerivedDocument(doc, first) && SupportedDocument(doc)
  {
    hide SupportedDirectives, Optional, Derived, Supported;
  }

  lemma DocumentIsFound(tokens: seq<Token>, e: Config, first: bool, doc: Document, more: seq<Event>, d: Config)
    requires DerivedDocument(doc, first) && SupportedDocument(doc) && Stand(tokens, e.pos, HeadTokens(doc) + Tokens(doc.root))
    requires Goes(tokens, e.(pos := e.pos + |HeadTokens(doc)| + |Tokens(doc.root)|, state := AtDocumentEnd, states := [], tags := TagsOf(doc)), more, d)
    ensures DocumentFound(tokens, e, first, doc, more, d)
  {
    hide Goes, DerivedDocument, SupportedDocument, Stand, HeadTokens, Tokens, TagsOf;
    assert |HeadTokens(doc) + Tokens(doc.root)| == |HeadTokens(doc)| + |Tokens(doc.root)|;
  }

  lemma BetweenOn(c: Config, e: Config, first: bool)
    requires Between(c, first) && e == c.(pos := e.pos)
    ensures Between(e, first) && c.state != AtEnd && c.states == []
  {
  }

  lemma NoEnds(tokens: seq<Token>, i: nat)
    requires i <= |tokens|
    ensures EndTokens(0) == [] && Stand(tokens, i, EndTokens(0))
  {
    StandNone(tokens, i);
  }

  lemma StreamDone(tokens: seq<Token>, c: Config, first: bool, extra: nat)
    requires AllTidy(tokens) && (first ==> extra == 0) && (extra > 0 ==> Is(tokens, c.pos, DocumentEndToken))
    requires Stand(tokens, c.pos, EndTokens(extra)) && |EndTokens(extra)| == extra && Is(tokens, c.pos + extra, StreamEndToken)
    ensures DocumentsFound(tokens, c, first, extra, [])
  {
    hide Stand;
    StandAt(tokens, c.pos + extra, StreamEndToken);
    StandJoin(tokens, c.pos, EndTokens(extra), RestTokens([]));
  }

  lemma AfterIsBetween(c: Config)
    requires c.state == AtDocumentStart && c.states == [] && c.tags == []
    ensures Between(c, false)
  {
  }

  lemma IsInside(tokens: seq<Token>, i: nat, k: Kind)
    ensures Is(tokens, i, k) ==> i + 1 <= |tokens|
  {
  }

  lemma DocumentsMean(tokens: seq<Token>, c: Config, first: bool, extra: nat, docs: seq<Document>)
    requires DocumentsFound(tokens, c, first, extra, docs)
    ensures DerivedStream(docs, first) && SupportedStream(docs) && Stand(tokens, c.pos, EndTokens(extra) + RestTokens(docs))
    ensures first ==> extra == 0
  {
    hide DerivedStream, SupportedStream, Stand;
  }

  // A document and the others after it.
  lemma DocumentsJoin(tokens: seq<Token>, c: Config, first: bool, extra: nat, doc: Document, k: nat, i: nat, extra': nat, docs': seq<Document>)
    requires (first ==> extra == 0) && (extra > 0 ==> Is(tokens, c.pos, DocumentEndToken)) && k <= 1
    requires Stand(tokens, c.pos, EndTokens(extra)) && |EndTokens(extra)| == extra
    requires DerivedDocument(doc, first) && SupportedDocument(doc) && Stand(tokens, c.pos + extra, HeadTokens(doc) + Tokens(doc.root))
    requires i == c.pos + extra + |HeadTokens(doc) + Tokens(doc.root)| && Stand(tokens, i, EndTokens(k)) && |EndTokens(k)| == k
    requires DerivedStream(docs', false) && SupportedStream(docs') && Stand(tokens, i + k, EndTokens(extra') + RestTokens(docs'))
    ensures DocumentsFound(tokens, c, first, extra, [doc.(ends := k + extra')] + docs')
  {
    hide *;
    var whole := doc.(ends := k + extra');
    var docs, root, rest := [whole] + docs', HeadTokens(doc) + Tokens(doc.root), RestTokens(docs');
    EndsJoin(tokens, i, k, extra', rest);
    StandJoin(tokens, c.pos + extra, root, EndTokens(k + extra') + rest);
    OtherEnds(doc, whole, first, docs');
    RestGrows(docs, whole, docs');
    assert RestTokens(docs) == root + (EndTokens(k + extra') + rest);
    StandJoin(tokens, c.pos, EndTokens(extra), RestTokens(docs));
    DocumentsAreFound(tokens, c, first, extra, docs);
  }

  lemma EndsJoin(tokens: seq<Token>, i: nat, k: nat, n: nat, rest: seq<Token>)
    requires k <= 1 && Stand(tokens, i, EndTokens(k)) && |EndTokens(k)| == k && Stand(tokens, i + k, EndTokens(n) + rest)
    ensures Stand(tokens, i, EndTokens(k + n) + rest)
  {
    hide *;
    EndsAdd(k, n);
    StandJoin(tokens, i, EndTokens(k), EndTokens(n) + rest);
    assert EndTokens(k) + (EndTokens(n) + rest) == EndTokens(k + n) + rest;
  }

  lemma RestGrows(docs: seq<Document>, doc: Document, docs': seq<Document>)
    requires docs == [doc] + docs'
    ensures RestTokens(docs) == (HeadTokens(doc) + Tokens(doc.root)) + (EndTokens(doc.ends) + RestTokens(docs'))
  {
    hide *;
    assert docs[0] == doc && docs[1..] == docs';
    L.RestTokensAre(docs);
  }

  lemma OtherEnds(doc: Document, whole: Document, first: bool, docs': seq<Document>)
    requires whole == doc.(ends := whole.ends) && DerivedDocument(doc, first) && SupportedDocument(doc)
    requires DerivedStream(docs', false) && SupportedStream(docs')
    ensures HeadTokens(whole) == HeadTokens(doc) && DerivedStream([whole] + docs', first) && SupportedStream([whole] + docs')
  {
    hide Derived, Optional, Supported, SupportedDirectives;
    assert ([whole] + docs')[1..] == docs' && TagsOf(whole) == TagsOf(doc);
  }

  lemma DocumentsAreFound(tokens: seq<Token>, c: Config, first: bool, extra: nat, docs: seq<Document>)
    requires DerivedStream(docs, first) && SupportedStream(docs) && Stand(tokens, c.pos, EndTokens(extra) + RestTokens(docs))
    requires (first ==> extra == 0) && (extra > 0 ==> Is(tokens, c.pos, DocumentEndToken))
    ensures DocumentsFound(tokens, c, first, extra, docs)
  {
    hide DerivedStream, SupportedStream, Stand;
  }

  lemma {:induction false} DocumentsBack(tokens: seq<Token>, c: Config, first: bool, events: seq<Event>, d: Config)
    returns (extra: nat, docs: seq<Document>)
    requires AllTidy(tokens) && Between(c, first) && Goes(tokens, c, events, d) && c.pos <= |tokens|
    ensures DocumentsFound(tokens, c, first, extra, docs)
    decreases |events|
  {
    hide *;
    BetweenOn(c, c, first);
    GoesStep(tokens, c, events, d);
    var o := Step(tokens, c);
    FromGives(tokens, o, events, d);
    if first { extra := 0; NoEnds(tokens, c.pos); } else { extra := EndsBack(tokens, c.pos); }
    StartSplits(tokens, c, first, extra);
    var e := c.(pos := c.pos + extra);
    BetweenOn(c, e, first);
    if Is(tokens, e.pos, StreamEndToken) {
      docs := [];
      StreamDone(tokens, c, first, extra);
    } else {
      var doc, more := DocumentBack(tokens, e, first, o, events[1..], d);
      DocumentMeans(tokens, e, first, doc, more, d);
      var m := e.(pos := e.pos + |HeadTokens(doc) + Tokens(doc.root)|, state := AtDocumentEnd, states := [], tags := TagsOf(doc));
      GoesStep(tokens, m, more, d);
      FromGives(tokens, Step(tokens, m), more, d);
      DocumentDone(tokens, m);
      var k := if Is(tokens, m.pos, DocumentEndToken) then 1 else 0;
      var c' := m.(pos := m.pos + k, state := AtDocumentStart, tags := []);
      AfterIsBetween(c');
      IsInside(tokens, m.pos, DocumentEndToken);
      var extra', docs' := DocumentsBack(tokens, c', false, more[1..], d);
      DocumentsMean(tokens, c', false, extra', docs');
      EndTokensCount(k);
      docs := [doc.(ends := k + extra')] + docs';
      DocumentsJoin(tokens, c, first, extra, doc, k, m.pos, extra', docs');
    }
  }

  // ---------- streams ----------

  lemma StartStep(tokens: seq<Token>)
    requires AllTidy(tokens) && Step(tokens, START).Gives?
    ensures Step(tokens, START).next == Config(1, AtImplicitDocumentStart, [], 0, []) && 1 <= |tokens| && Stand(tokens, 0, [Sign(StreamStartToken)])
    ensures Between(Config(1, AtImplicitDocumentStart, [], 0, []), true)
  {
    StandAt(tokens, 0, StreamStartToken);
  }

  // Whatever tokens the parser takes to the end of the stream without swallowing any
  // are those of a derivation that can be taken.
  lemma StreamDerived(tokens: seq<Token>, events: seq<Event>, d: Config) returns (docs: seq<Document>)
    requires AllTidy(tokens) && Goes(tokens, START, events, d)
    ensures DerivedStream(docs, true) && SupportedStream(docs) && Stand(tokens, 0, StreamTokens(docs))
  {
    hide *;
    StartNotEnd();
    GoesStep(tokens, START, events, d);
    FromGives(tokens, Step(tokens, START), events, d);
    StartStep(tokens);
    var c := Config(1, AtImplicitDocumentStart, [], 0, []);
    var extra;
    extra, docs := DocumentsBack(tokens, c, true, events[1..], d);
    DocumentsMean(tokens, c, true, extra, docs);
    NoEnds(tokens, 1);
    assert [] + RestTokens(docs) == RestTokens(docs);
    StandJoin(tokens, 0, [Sign(StreamStartToken)], RestTokens(docs));
    StreamIs(docs);
  }

  lemma StartNotEnd()
    ensures START.state != AtEnd
  {
  }

  lemma StreamIs(docs: seq<Document>)
    ensures StreamTokens(docs) == [Sign(StreamStartToken)] + RestTokens(docs)
  {
    hide RestTokens;
  }

  // ---------- the language ----------

  // After a key indicator there is a key, or a token that no flow sequence takes for one.
  ghost predicate KeysFollow(tokens: seq<Token>) {
    forall i :: 0 <= i < |tokens| - 1 && tokens[i].kind == KeyToken ==> !(tokens[i + 1].kind in {ValueToken, FlowEntryToken, FlowSequenceEndToken})
  }

  // The end of the stream can only be the last token.
  ghost predicate EndsLast(tokens: seq<Token>) {
    forall i :: 0 <= i < |tokens| - 1 ==> tokens[i].kind != StreamEndToken
  }

  // The key of a pair in a flow sequence is only read right after its indicator.
  predicate AfterKey(tokens: seq<Token>, c: Config) {
    && (c.state == AtFlowSequenceEntryMappingKey ==> c.pos > 0 && Is(tokens, c.pos - 1, KeyToken))
    && AtFlowSequenceEntryMappingKey !in c.states
  }

  lemma NodeAfterKey(tokens: seq<Token>, c: Config, block: bool, indentless: bool)
    requires AtFlowSequenceEntryMappingKey !in c.states && NodeStep(tokens, c, block, indentless).Gives?
    ensures AfterKey(tokens, NodeStep(tokens, c, block, indentless).next)
  {
    hide PropertiesAt, ContentStep;
    if !Is(tokens, c.pos, AliasToken) {
      match PropertiesAt(tokens, c.pos, c.tags)
      case Properties(anchor, tag, i) => ContentAfterKey(tokens, c.(pos := i), block, indentless, anchor, tag);
    }
  }

  lemma ContentAfterKey(tokens: seq<Token>, c: Config, block: bool, indentless: bool, anchor: string, tag: string)
    requires AtFlowSequenceEntryMappingKey !in c.states && ContentStep(tokens, c, block, indentless, anchor, tag).Gives?
    ensures AfterKey(tokens, ContentStep(tokens, c, block, indentless, anchor, tag).next)
  {
    hide ScalarOf;
  }

  lemma NextAfterKey(tokens: seq<Token>, c: Config, q: PState, block: bool, indentless: bool)
    requires AtFlowSequenceEntryMappingKey !in c.states && q != AtFlowSequenceEntryMappingKey
    ensures var o := ThenNode(tokens, c, q, block, indentless); o.Gives? ==> AfterKey(tokens, o.next)
  {
    hide NodeStep, AfterKey;
    if ThenNode(tokens, c, q, block, indentless).Gives? {
      NodeAfterKey(tokens, c.(states := c.states + [q]), block, indentless);
    }
  }

  lemma BlockAfterKey(tokens: seq<Token>, c: Config)
    requires AtFlowSequenceEntryMappingKey !in c.states
    ensures var o := BlockSequenceStep(tokens, c); o.Gives? ==> AfterKey(tokens, o.next)
    ensures var o := IndentlessStep(tokens, c); o.Gives? ==> AfterKey(tokens, o.next)
    ensures var o := BlockKeyStep(tokens, c); o.Gives? ==> AfterKey(tokens, o.next)
    ensures var o := BlockValueStep(tokens, c); o.Gives? ==> AfterKey(tokens, o.next)
  {
    hide ThenNode;
    var d := c.(pos := c.pos + 1);
    NextAfterKey(tokens, d, AtBlockSequenceEntry, true, false);
    NextAfterKey(tokens, d, AtIndentlessSequenceEntry, true, false);
    NextAfterKey(tokens, d, AtBlockMappingValue, true, true);
    NextAfterKey(tokens, d, AtBlockMappingKey, true, true);
  }

  lemma FlowAfterKey(tokens: seq<Token>, c: Config, first: bool)
    requires AtFlowSequenceEntryMappingKey !in c.states
    ensures var o := FlowSequenceStep(tokens, c, first); o.Gives? ==> AfterKey(tokens, o.next)
    ensures var o := FlowPairKeyStep(tokens, c); o.Gives? ==> AfterKey(tokens, o.next)
    ensures var o := FlowPairValueStep(tokens, c); o.Gives? ==> AfterKey(tokens, o.next)
    ensures var o := FlowPairEndStep(tokens, c); o.Gives? ==> AfterKey(tokens, o.next)
  {
    hide ThenNode;
    var d := c.(pos := c.pos + 1);
    NextAfterKey(tokens, c, AtFlowSequenceEntry, false, false);
    NextAfterKey(tokens, d, AtFlowSequenceEntry, false, false);
    NextAfterKey(tokens, c, AtFlowSequenceEntryMappingValue, false, false);
    NextAfterKey(tokens, d, AtFlowSequenceEntryMappingEnd, false, false);
  }

  lemma FlowMapAfterKey(tokens: seq<Token>, c: Config, first: bool)
    requires AtFlowSequenceEntryMappingKey !in c.states
    ensures var o := FlowKeyStep(tokens, c, first); o.Gives? ==> AfterKey(tokens, o.next)
    ensures var o := FlowValueStep(tokens, c, first); o.Gives? ==> AfterKey(tokens, o.next)
  {
    hide ThenNode;
    var d := c.(pos := c.pos + 1);
    var e := c.(pos := c.pos + 2);
    NextAfterKey(tokens, c, AtFlowMappingEmptyValue, false, false);
    NextAfterKey(tokens, d, AtFlowMappingEmptyValue, false, false);
    NextAfterKey(tokens, d, AtFlowMappingValue, false, false);
    NextAfterKey(tokens, e, AtFlowMappingValue, false, false);
    NextAfterKey(tokens, d, AtFlowMappingKey, false, false);
  }

  lemma DocumentAfterKey(tokens: seq<Token>, c: Config, implicit: bool)
    requires AtFlowSequenceEntryMappingKey !in c.states
    ensures var o := StreamStartStep(tokens, c); o.Gives? ==> AfterKey(tokens, o.next)
    ensures var o := DocumentStartStep(tokens, c, implicit); o.Gives? ==> AfterKey(tokens, o.next)
    ensures var o := DocumentContentStep(tokens, c); o.Gives? ==> AfterKey(tokens, o.next)
    ensures var o := DocumentEndStep(tokens, c); o.Gives? ==> AfterKey(tokens, o.next)
  {
    hide NodeStep, DirectivesAt, PastDocumentEnds, WithDefaults;
    if NodeStep(tokens, c, true, false).Gives? { NodeAfterKey(tokens, c, true, false); }
  }

  lemma StepAfterKey(tokens: seq<Token>, c: Config)
    requires AfterKey(tokens, c) && Step(tokens, c).Gives?
    ensures AfterKey(tokens, Step(tokens, c).next)
  {
    hide AfterKey, Entered, StreamStartStep, DocumentStartStep, DocumentContentStep, DocumentEndStep, NodeStep, BlockSequenceStep,
      IndentlessStep, BlockKeyStep, BlockValueStep, FlowSequenceStep, FlowPairKeyStep, FlowPairValueStep, FlowPairEndStep, FlowKeyStep,
      FlowValueStep;
    KeyNotBelow(tokens, c);
    var d := Entered(c, true);
    EnteredBelow(c);
    match c.state
    case AtStreamStart | AtDocumentContent | AtDocumentEnd | AtImplicitDocumentStart => DocumentAfterKey(tokens, c, true);
    case AtDocumentStart => DocumentAfterKey(tokens, c, false);
    case AtBlockNode => NodeAfterKey(tokens, c, true, false);
    case AtBlockNodeOrIndentlessSequence => NodeAfterKey(tokens, c, true, true);
    case AtFlowNode => NodeAfterKey(tokens, c, false, false);
    case AtBlockSequenceFirstEntry | AtBlockMappingFirstKey => BlockAfterKey(tokens, d);
    case AtBlockSequenceEntry | AtIndentlessSequenceEntry | AtBlockMappingKey | AtBlockMappingValue => BlockAfterKey(tokens, c);
    case AtFlowSequenceFirstEntry => FlowAfterKey(tokens, d, true);
    case AtFlowSequenceEntry | AtFlowSequenceEntryMappingKey | AtFlowSequenceEntryMappingValue | AtFlowSequenceEntryMappingEnd =>
      FlowAfterKey(tokens, c, false);
    case AtFlowMappingFirstKey => FlowMapAfterKey(tokens, d, true);
    case AtFlowMappingKey | AtFlowMappingValue => FlowMapAfterKey(tokens, c, false);
    case AtFlowMappingEmptyValue => FlowMapAfterKey(tokens, c, true);
    case AtEnd =>
  }

  lemma KeyNotBelow(tokens: seq<Token>, c: Config)
    requires AfterKey(tokens, c)
    ensures AtFlowSequenceEntryMappingKey !in c.states
  {
  }

  lemma EnteredBelow(c: Config)
    ensures Entered(c, true).states == c.states
  {
  }

  // A key that is there is not swallowed.
  lemma NothingSwallowed(tokens: seq<Token>, c: Config)
    requires KeysFollow(tokens) && AfterKey(tokens, c)
    ensures !Swallows(tokens, c)
  {
  }

  lemma {:induction false} RunGoes(tokens: seq<Token>, c: Config, events: seq<Event>, d: Config)
    requires KeysFollow(tokens) && AfterKey(tokens, c) && Runs(tokens, c, events, d) && d.state == AtEnd
    ensures Goes(tokens, c, events, d)
    decreases |events|
  {
    hide Step, AfterKey, KeysFollow, Swallows;
    if events != [] {
      StepAfterKey(tokens, c);
      NothingSwallowed(tokens, c);
      RunGoes(tokens, Step(tokens, c).next, events[1..], d);
    }
  }

  // The tokens at the start are all there are.
  lemma AllStand(tokens: seq<Token>, docs: seq<Document>)
    requires EndsLast(tokens) && Stand(tokens, 0, StreamTokens(docs))
    ensures tokens == StreamTokens(docs)
  {
    hide RestTokens;
    L.RestEven(docs);
    var all, rest := StreamTokens(docs), RestTokens(docs);
    var n := |rest| - 1;
    assert all[n + 1] == rest[n] == Sign(StreamEndToken);
    assert tokens[..|all|] == all;
    assert tokens[n + 1] == all[n + 1];
  }

  // A stream of the grammar that the parser can take.
  ghost predicate InLanguage(tokens: seq<Token>, docs: seq<Document>) {
    DerivedStream(docs, true) && SupportedStream(docs) && tokens == StreamTokens(docs)
  }

  // Of tokens with no key indicator for a missing key, the parser comes to the end
  // of exactly the supported streams of the grammar, and gives their events.
  lemma ExactLanguage(tokens: seq<Token>)
    requires AllTidy(tokens) && KeysFollow(tokens) && EndsLast(tokens)
    ensures L.Ends(tokens) <==> exists docs :: InLanguage(tokens, docs)
    ensures forall events, c, docs :: Runs(tokens, START, events, c) && c.state == AtEnd && InLanguage(tokens, docs) ==> events == StreamEvents(docs)
  {
    hide AllTidy, KeysFollow, EndsLast, Runs, Goes, Step, DerivedStream, SupportedStream, StreamTokens, StreamEvents, Stand;
    if L.Ends(tokens) {
      var events, d :| Runs(tokens, START, events, d) && d.state == AtEnd;
      RunGoes(tokens, START, events, d);
      var docs := StreamDerived(tokens, events, d);
      AllStand(tokens, docs);
      assert InLanguage(tokens, docs);
    }
    forall docs | InLanguage(tokens, docs) ensures L.Ends(tokens) {
      L.StreamTaken(docs);
    }
    forall events, c, docs | Runs(tokens, START, events, c) && c.state == AtEnd && InLanguage(tokens, docs) ensures events == StreamEvents(docs) {
      L.EventsAre(docs, events, c);
    }
  }

  // ---------- what the parser takes without the grammar ----------

  // A flow sequence of a key indicator alone, with one closing bracket too many.
  const ONE_TOO_MANY := [Sign(StreamStartToken), Sign(FlowSequenceStartToken), Sign(KeyToken), Sign(FlowSequenceEndToken),
                         Sign(FlowSequenceEndToken), Sign(StreamEndToken)]

  ghost predicate EndsFrom(tokens: seq<Token>, c: Config) {
    exists events, d :: Runs(tokens, c, events, d) && d.state == AtEnd
  }

  lemma EndsNext(tokens: seq<Token>, c: Config, o: Outcome)
    requires Step(tokens, c) == o && o.Gives? && EndsFrom(tokens, o.next)
    ensures EndsFrom(tokens, c)
  {
    hide Step, Runs;
    var events, d :| Runs(tokens, o.next, events, d) && d.state == AtEnd;
    RunsCons(tokens, c, o, events, d);
  }

  // The first of the two is taken for the missing key, so the parser comes to the
  // end, though no derivation has these tokens.
  lemma BracketSwallowed()
    ensures AllTidy(ONE_TOO_MANY) && EndsLast(ONE_TOO_MANY) && !KeysFollow(ONE_TOO_MANY)
    ensures L.Ends(ONE_TOO_MANY) && forall docs :: StreamTokens(docs) != ONE_TOO_MANY
  {
    hide EndsFrom, Runs, L.Ends, Step, NodeStep, AllTidy, KeysFollow, EndsLast, StreamTokens;
    BracketConditions();
    BracketSteps();
    forall docs ensures StreamTokens(docs) != ONE_TOO_MANY {
      L.StreamEven(docs);
      BracketWeighs();
    }
  }

  lemma BracketConditions()
    ensures AllTidy(ONE_TOO_MANY) && EndsLast(ONE_TOO_MANY) && !KeysFollow(ONE_TOO_MANY)
  {
    assert ONE_TOO_MANY[2].kind == KeyToken && ONE_TOO_MANY[3].kind == FlowSequenceEndToken;
  }

  lemma BracketWeighs()
    ensures Balance(ONE_TOO_MANY, 1) == 1
  {
    var ts := ONE_TOO_MANY;
    assert ts[1..] == [ts[1], ts[2], ts[3], ts[4], ts[5]];
    assert [ts[1], ts[2], ts[3], ts[4], ts[5]][1..] == [ts[2], ts[3], ts[4], ts[5]];
    assert [ts[2], ts[3], ts[4], ts[5]][1..] == [ts[3], ts[4], ts[5]];
    assert [ts[3], ts[4], ts[5]][1..] == [ts[4], ts[5]];
    assert [ts[4], ts[5]][1..] == [ts[5]];
    assert [ts[5]][1..] == [];
    assert Weigh([ts[5]]) == 0 && Weigh([ts[4], ts[5]]) == 1 && Weigh([ts[3], ts[4], ts[5]]) == 2;
    assert Weigh([ts[2], ts[3], ts[4], ts[5]]) == 2;
  }

  lemma BracketSteps()
    ensures L.Ends(ONE_TOO_MANY)
  {
    hide *;
    var tags := WithDefaults([]);
    BracketEnd(tags);
    BracketPair(tags);
    BracketStart(tags);
    BracketFirst(tags);
    EndsAll(ONE_TOO_MANY);
  }

  lemma BracketEnd(tags: seq<TagDirective>)
    ensures EndsFrom(ONE_TOO_MANY, Config(5, AtDocumentEnd, [], 0, tags))
  {
    hide EndsFrom, NodeStep, ExplicitStep;
    var ts := ONE_TOO_MANY;
    EndOfAll(ts, Config(6, AtEnd, [], 0, []));
    EndsNext(ts, Config(5, AtDocumentStart, [], 0, []), Gives(StreamEnd, Config(6, AtEnd, [], 0, [])));
    EndsNext(ts, Config(5, AtDocumentEnd, [], 0, tags), Gives(DocumentEnd(true), Config(5, AtDocumentStart, [], 0, [])));
  }

  lemma BracketStart(tags: seq<TagDirective>)
    requires EndsFrom(ONE_TOO_MANY, Config(3, AtFlowSequenceEntryMappingKey, [AtDocumentEnd], 1, tags))
    ensures EndsFrom(ONE_TOO_MANY, Config(1, AtBlockNode, [AtDocumentEnd], 0, tags))
  {
    hide EndsFrom, NodeStep;
    var ts := ONE_TOO_MANY;
    var c := Config(1, AtFlowSequenceFirstEntry, [AtDocumentEnd], 0, tags);
    EndsNext(ts, c, Gives(MappingStart("", "", true, true), Config(3, AtFlowSequenceEntryMappingKey, [AtDocumentEnd], 1, tags)));
    BracketOpens(tags);
    EndsNext(ts, c.(state := AtBlockNode), Gives(SequenceStart("", "", true, true), c));
  }

  lemma BracketOpens(tags: seq<TagDirective>)
    ensures var c := Config(1, AtBlockNode, [AtDocumentEnd], 0, tags);
      NodeStep(ONE_TOO_MANY, c, true, false) == Gives(SequenceStart("", "", true, true), c.(state := AtFlowSequenceFirstEntry))
  {
    hide WithTag, ScalarOf;
  }

  lemma BracketFirst(tags: seq<TagDirective>)
    requires tags == WithDefaults([]) && EndsFrom(ONE_TOO_MANY, Config(1, AtBlockNode, [AtDocumentEnd], 0, tags))
    ensures EndsFrom(ONE_TOO_MANY, START)
  {
    hide EndsFrom, WithDefaults, NodeStep, ExplicitStep;
    var ts, c := ONE_TOO_MANY, Config(1, AtImplicitDocumentStart, [], 0, []);
    assert [] + [AtDocumentEnd] == [AtDocumentEnd];
    EndsNext(ts, c, Gives(DocumentStart, Config(1, AtBlockNode, [AtDocumentEnd], 0, tags)));
    EndsNext(ts, START, Gives(StreamStart, c));
  }

  lemma BracketPair(tags: seq<TagDirective>)
    requires EndsFrom(ONE_TOO_MANY, Config(5, AtDocumentEnd, [], 0, tags))
    ensures EndsFrom(ONE_TOO_MANY, Config(3, AtFlowSequenceEntryMappingKey, [AtDocumentEnd], 1, tags))
  {
    hide EndsFrom, NodeStep;
    var ts, key := ONE_TOO_MANY, Config(3, AtFlowSequenceEntryMappingKey, [AtDocumentEnd], 1, tags);
    var last := key.(pos := 4, state := AtFlowSequenceEntry);
    EndsNext(ts, last, Gives(SequenceEnd, Config(5, AtDocumentEnd, [], 0, tags)));
    EndsNext(ts, last.(state := AtFlowSequenceEntryMappingEnd), Gives(MappingEnd, last));
    EndsNext(ts, last.(state := AtFlowSequenceEntryMappingValue), Gives(EMPTY, last.(state := AtFlowSequenceEntryMappingEnd)));
    EndsNext(ts, key, Gives(EMPTY, last.(state := AtFlowSequenceEntryMappingValue)));
  }

  lemma EndOfAll(tokens: seq<Token>, c: Config)
    requires c.state == AtEnd
    ensures EndsFrom(tokens, c)
  {
    RunsNone(tokens, c);
  }

  lemma EndsAll(tokens: seq<Token>)
    requires EndsFrom(tokens, START)
    ensures L.Ends(tokens)
  {
    hide Runs;
  }
}
