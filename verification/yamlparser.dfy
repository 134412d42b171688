// The YAML event parser: a state machine with a stack of states over a sequence
// of tokens, and the grammar its events follow.

module YamlEvents {
  datatype Event =
    | NoEvent
    | StreamStart
    | StreamEnd
    | DocumentStart
    | DocumentEnd(implicit: bool)
    | Alias(anchor: string)
    | Scalar(anchor: string, tag: string, value: string, implicit: bool, quotedImplicit: bool)
    | SequenceStart(anchor: string, tag: string, implicit: bool, flow: bool)
    | SequenceEnd
    | MappingStart(anchor: string, tag: string, implicit: bool, flow: bool)
    | MappingEnd

  // What is open: the stream, a document before and after its root node, a
  // sequence, a mapping waiting for a key (or its end) or for a value.
  datatype Frame = InStream | InDocument | AfterRoot | InSequence | AtKey | AtValue

  // How far a well-nested sequence of events has come.
  datatype Progress = Fresh | Open(stack: seq<Frame>) | Closed | Bad

  predicate IsNode(e: Event) {
    e.Alias? || e.Scalar? || e.SequenceStart? || e.MappingStart?
  }

  // The innermost frame once it has got one more node.
  function Fed(f: Frame): Frame {
    match f
    case InDocument => AfterRoot
    case AtKey => AtValue
    case AtValue => AtKey
    case _ => f
  }

  predicate Takes(f: Frame) {
    f == InDocument || f == InSequence || f == AtKey || f == AtValue
  }

  function Feed(stack: seq<Frame>): Progress {
    var n := |stack| - 1;
    if stack != [] && Takes(stack[n]) then Open(stack[..n] + [Fed(stack[n])]) else Bad
  }

  function Push(p: Progress, f: Frame): Progress {
    if p.Open? then Open(p.stack + [f]) else Bad
  }

  function Leave(stack: seq<Frame>, f: Frame): Progress {
    var n := |stack| - 1;
    if stack != [] && stack[n] == f then Open(stack[..n]) else Bad
  }

  // The grammar: every document has one root, every mapping pairs of nodes.
  function Next(p: Progress, e: Event): Progress {
    match p
    case Fresh => if e.StreamStart? then Open([InStream]) else Bad
    case Open(stack) =>
      if e.Alias? || e.Scalar? then Feed(stack)
      else if e.SequenceStart? then Push(Feed(stack), InSequence)
      else if e.MappingStart? then Push(Feed(stack), AtKey)
      else if e.SequenceEnd? then Leave(stack, InSequence)
      else if e.MappingEnd? then Leave(stack, AtKey)
      else if e.DocumentEnd? then Leave(stack, AfterRoot)
      else if e.DocumentStart? && stack == [InStream] then Open([InStream, InDocument])
      else if e.StreamEnd? && stack == [InStream] then Closed
      else Bad
    case Closed => Bad
    case Bad => Bad
  }

  function After(events: seq<Event>): Progress {
    if events == [] then Fresh else Next(After(events[..|events| - 1]), events[|events| - 1])
  }
}

module YamlParser {
  import opened YamlEvents
  import opened YamlSteps

  // ---------- what the states stand for ----------

  // The states that are pushed to go on with when a node is complete.
  predicate Resumes(q: PState) {
    q == AtBlockSequenceEntry || q == AtIndentlessSequenceEntry || q == AtBlockMappingKey || q == AtBlockMappingValue
    || q == AtFlowSequenceEntry || q == AtFlowSequenceEntryMappingValue || q == AtFlowSequenceEntryMappingEnd
    || q == AtFlowMappingKey || q == AtFlowMappingValue || q == AtFlowMappingEmptyValue
  }

  predicate IsFirst(q: PState) {
    q == AtBlockSequenceFirstEntry || q == AtBlockMappingFirstKey || q == AtFlowSequenceFirstEntry || q == AtFlowMappingFirstKey
  }

  // The states inside a collection.
  predicate Inside(q: PState) {
    Resumes(q) || IsFirst(q) || q == AtFlowSequenceEntryMappingKey
  }

  // The frames of a state; a pair in a flow sequence is a mapping of its own.
  function Frames(q: PState): seq<Frame> {
    match q
    case AtDocumentEnd => [InStream, AfterRoot]
    case AtBlockSequenceFirstEntry => [InSequence]
    case AtBlockSequenceEntry => [InSequence]
    case AtIndentlessSequenceEntry => [InSequence]
    case AtFlowSequenceFirstEntry => [InSequence]
    case AtFlowSequenceEntry => [InSequence]
    case AtFlowSequenceEntryMappingKey => [InSequence, AtKey]
    case AtFlowSequenceEntryMappingValue => [InSequence, AtValue]
    case AtFlowSequenceEntryMappingEnd => [InSequence, AtKey]
    case AtBlockMappingFirstKey => [AtKey]
    case AtBlockMappingKey => [AtKey]
    case AtBlockMappingValue => [AtValue]
    case AtFlowMappingFirstKey => [AtKey]
    case AtFlowMappingKey => [AtKey]
    case AtFlowMappingValue => [AtValue]
    case AtFlowMappingEmptyValue => [AtValue]
    case _ => []
  }

  // The frames before the node that leads to the state.
  function Before(q: PState): seq<Frame> {
    match q
    case AtDocumentEnd => [InStream, InDocument]
    case AtFlowSequenceEntryMappingValue => [InSequence, AtKey]
    case AtFlowSequenceEntryMappingEnd => [InSequence, AtValue]
    case AtBlockMappingKey => [AtValue]
    case AtBlockMappingValue => [AtKey]
    case AtFlowMappingKey => [AtValue]
    case AtFlowMappingValue => [AtKey]
    case AtFlowMappingEmptyValue => [AtKey]
    case _ => [InSequence]
  }

  function AllFrames(states: seq<PState>): seq<Frame> {
    if states == [] then [] else AllFrames(states[..|states| - 1]) + Frames(states[|states| - 1])
  }

  // Collections that have a mark on the stack of marks.
  function Mark(q: PState): nat {
    if Inside(q) && !IsFirst(q) && q != AtIndentlessSequenceEntry then 1 else 0
  }

  function AllMarks(states: seq<PState>): nat {
    if states == [] then 0 else AllMarks(states[..|states| - 1]) + Mark(states[|states| - 1])
  }

  // A document is at the bottom, collections are above it.
  predicate Stacked(states: seq<PState>) {
    forall k :: 0 <= k < |states| ==> if k == 0 then states[k] == AtDocumentEnd else Resumes(states[k])
  }

  // How many events a state can give without taking a token, at most.
  function Rank(q: PState): nat {
    match q
    case AtEnd => 0
    case AtDocumentEnd => 2
    case AtBlockNode => 2
    case AtDocumentContent => 2
    case AtBlockMappingValue => 2
    case AtFlowMappingValue => 2
    case AtFlowMappingEmptyValue => 2
    case AtFlowSequenceEntryMappingEnd => 2
    case AtFlowSequenceEntryMappingValue => 3
    case AtFlowSequenceEntryMappingKey => 6
    case AtImplicitDocumentStart => 6
    case _ => 1
  }

  function AllRanks(states: seq<PState>): nat {
    if states == [] then 0 else AllRanks(states[..|states| - 1]) + Rank(states[|states| - 1]) + 1
  }

  ghost predicate Fits(q: PState, states: seq<PState>, p: Progress) {
    match q
    case AtStreamStart => states == [] && p == Fresh
    case AtImplicitDocumentStart => states == [] && p == Open([InStream])
    case AtDocumentStart => states == [] && p == Open([InStream])
    case AtBlockNode => states == [AtDocumentEnd] && p == Open([InStream, InDocument])
    case AtDocumentContent => states == [AtDocumentEnd] && p == Open([InStream, InDocument])
    case AtDocumentEnd => states == [] && p == Open([InStream, AfterRoot])
    case AtEnd => states == [] && p == Closed
    case _ => Inside(q) && states != [] && Stacked(states) && p == Open(AllFrames(states) + Frames(q))
  }

  // A node is to come, after which the parser goes on in the top state.
  ghost predicate AwaitsNode(states: seq<PState>, p: Progress) {
    var n := |states| - 1;
    states != [] && Stacked(states) && p == Open(AllFrames(states[..n]) + Before(states[n]))
  }

  predicate Opens(k: Kind) {
    k == BlockSequenceStartToken || k == BlockMappingStartToken || k == FlowSequenceStartToken || k == FlowMappingStartToken
  }

  lemma PushedFrames(states: seq<PState>, q: PState)
    ensures AllFrames(states + [q]) == AllFrames(states) + Frames(q)
    ensures AllMarks(states + [q]) == AllMarks(states) + Mark(q)
    ensures AllRanks(states + [q]) == AllRanks(states) + Rank(q) + 1
  {
    assert (states + [q])[..|states|] == states;
  }

  lemma TopFrames(states: seq<PState>)
    requires states != []
    ensures var n := |states| - 1;
      && AllFrames(states) == AllFrames(states[..n]) + Frames(states[n])
      && AllMarks(states) == AllMarks(states[..n]) + Mark(states[n])
      && AllRanks(states) == AllRanks(states[..n]) + Rank(states[n]) + 1
  {
  }

  lemma BeforeFeeds(q: PState)
    requires q == AtDocumentEnd || Resumes(q)
    ensures var f := Before(q); var k := |f| - 1; f != [] && Takes(f[k]) && f[..k] + [Fed(f[k])] == Frames(q)
  {
  }

  lemma FeedsOnTop(below: seq<Frame>, f: seq<Frame>)
    requires f != [] && Takes(f[|f| - 1])
    ensures Feed(below + f) == Open(below + (f[..|f| - 1] + [Fed(f[|f| - 1])]))
  {
    assert (below + f)[..|below + f| - 1] == below + f[..|f| - 1];
  }

  // One more node in front of the states to come.
  lemma NodeFeeds(states: seq<PState>, p: Progress)
    requires AwaitsNode(states, p)
    ensures p.Open? && Feed(p.stack) == Open(AllFrames(states))
  {
    var n := |states| - 1;
    assert states[n] == AtDocumentEnd || Resumes(states[n]);
    BeforeFeeds(states[n]);
    FeedsOnTop(AllFrames(states[..n]), Before(states[n]));
    hide Before, Frames, Feed, Fed, Takes;
    TopFrames(states);
  }

  lemma FitsInside(q: PState, states: seq<PState>)
    requires Resumes(q) && states != [] && Stacked(states)
    ensures Fits(q, states, Open(AllFrames(states) + Frames(q)))
  {
    hide AllFrames, Frames, Stacked;
  }

  lemma DocumentAlone(states: seq<PState>)
    requires states == [AtDocumentEnd]
    ensures AllFrames(states) == [InStream, AfterRoot] && states[..0] == []
  {
    assert AllFrames(states[..0]) == [];
    assert [] + Frames(AtDocumentEnd) == [InStream, AfterRoot];
  }

  lemma BelowStacked(states: seq<PState>)
    requires |states| > 1 && Stacked(states)
    ensures var n := |states| - 1; Stacked(states[..n]) && states[..n] != [] && Resumes(states[n])
  {
    assert states[..|states| - 1][0] == AtDocumentEnd;
  }

  // With everything above the top state done, that state goes on.
  lemma TopGoesOn(states: seq<PState>)
    requires states != [] && Stacked(states)
    ensures Fits(states[|states| - 1], states[..|states| - 1], Open(AllFrames(states)))
  {
    hide AllFrames, Frames, Resumes;
    var n := |states| - 1;
    if n > 0 {
      TopFrames(states);
      BelowStacked(states);
      FitsInside(states[n], states[..n]);
    } else {
      assert states == [AtDocumentEnd];
      DocumentAlone(states);
    }
  }

  // After a scalar the top state is popped and goes on.
  lemma NodePops(states: seq<PState>, p: Progress, e: Event)
    requires AwaitsNode(states, p) && (e.Scalar? || e.Alias?)
    ensures Fits(states[|states| - 1], states[..|states| - 1], Next(p, e))
  {
    hide Fits, AllFrames;
    NodeFeeds(states, p);
    TopGoesOn(states);
  }

  // After the start of a collection its first state is on top.
  lemma NodeOpens(states: seq<PState>, p: Progress, e: Event, q: PState)
    requires AwaitsNode(states, p) && Inside(q)
    requires (e.SequenceStart? && Frames(q) == [InSequence]) || (e.MappingStart? && Frames(q) == [AtKey])
    ensures Fits(q, states, Next(p, e))
  {
    NodeFeeds(states, p);
  }

  lemma LeavesTop(below: seq<Frame>, f: Frame)
    ensures Leave(below + [f], f) == Open(below)
  {
    assert (below + [f])[..|below|] == below;
  }

  // The end of a collection; the state below goes on.
  lemma CollectionEnds(states: seq<PState>, p: Progress, e: Event)
    requires states != [] && Stacked(states)
    requires (e == SequenceEnd && p == Open(AllFrames(states) + [InSequence])) || (e == MappingEnd && p == Open(AllFrames(states) + [AtKey]))
    ensures Fits(states[|states| - 1], states[..|states| - 1], Next(p, e))
  {
    hide Fits, AllFrames, Leave;
    LeavesTop(AllFrames(states), if e == SequenceEnd then InSequence else AtKey);
    TopGoesOn(states);
  }

  lemma PairStarts(states: seq<PState>, p: Progress, e: Event)
    requires states != [] && Stacked(states) && p == Open(AllFrames(states) + [InSequence]) && e.MappingStart?
    ensures Fits(AtFlowSequenceEntryMappingKey, states, Next(p, e))
  {
    FeedsOnTop(AllFrames(states), [InSequence]);
    assert AllFrames(states) + [InSequence] + [AtKey] == AllFrames(states) + [InSequence, AtKey];
  }

  lemma PairEnds(states: seq<PState>, p: Progress)
    requires states != [] && Stacked(states) && p == Open(AllFrames(states) + [InSequence, AtKey])
    ensures Fits(AtFlowSequenceEntry, states, Next(p, MappingEnd))
  {
    assert p.stack[..|p.stack| - 1] == AllFrames(states) + [InSequence];
  }

  // A node is to come after which q goes on.
  lemma PushAwaits(states: seq<PState>, q: PState, p: Progress)
    requires states != [] && Stacked(states) && Resumes(q) && p == Open(AllFrames(states) + Before(q))
    ensures AwaitsNode(states + [q], p)
  {
    assert (states + [q])[..|states|] == states;
  }

  // An empty node, and then q.
  lemma EmptyNode(states: seq<PState>, q: PState, p: Progress, e: Event)
    requires states != [] && Stacked(states) && Resumes(q) && p == Open(AllFrames(states) + Before(q)) && e.Scalar?
    ensures Fits(q, states, Next(p, e))
  {
    PushAwaits(states, q, p);
    NodePops(states + [q], p, e);
    assert (states + [q])[..|states|] == states;
  }

  // After one more node in the state now the parser can go on in q.
  predicate Leads(now: PState, q: PState) {
    Resumes(q) && Before(q) == Frames(now) && Mark(q) == Mark(now)
  }

  lemma Successions()
    ensures Leads(AtBlockSequenceEntry, AtBlockSequenceEntry) && Leads(AtIndentlessSequenceEntry, AtIndentlessSequenceEntry)
    ensures Leads(AtBlockMappingKey, AtBlockMappingValue) && Leads(AtBlockMappingValue, AtBlockMappingKey)
    ensures Leads(AtFlowSequenceEntry, AtFlowSequenceEntry)
    ensures Leads(AtFlowSequenceEntryMappingKey, AtFlowSequenceEntryMappingValue)
    ensures Leads(AtFlowSequenceEntryMappingValue, AtFlowSequenceEntryMappingEnd)
    ensures Leads(AtFlowMappingKey, AtFlowMappingValue) && Leads(AtFlowMappingKey, AtFlowMappingEmptyValue)
    ensures Leads(AtFlowMappingValue, AtFlowMappingKey) && Leads(AtFlowMappingEmptyValue, AtFlowMappingKey)
    ensures Rank(AtBlockSequenceEntry) == Rank(AtIndentlessSequenceEntry) == Rank(AtFlowSequenceEntry) == 1
    ensures Rank(AtBlockMappingKey) == Rank(AtFlowMappingKey) == 1
    ensures Rank(AtBlockMappingValue) == Rank(AtFlowMappingValue) == Rank(AtFlowMappingEmptyValue) == Rank(AtFlowSequenceEntryMappingEnd) == 2
    ensures Rank(AtFlowSequenceEntryMappingValue) == 3 && Rank(AtFlowSequenceEntryMappingKey) == 6
  {
  }

  // The states a collection ends in, and whether it has a mark.
  predicate Ends(now: PState, end: Event, marked: bool) {
    && ((end == SequenceEnd && Frames(now) == [InSequence]) || (end == MappingEnd && Frames(now) == [AtKey]))
    && Mark(now) == if marked then 1 else 0
  }

  lemma EndingMeans(states: seq<PState>, now: PState, end: Event, marked: bool, p: Progress)
    requires states != [] && Stacked(states) && p == Open(AllFrames(states) + Frames(now)) && Ends(now, end, marked)
    ensures var n := |states| - 1;
      && Fits(states[n], states[..n], Next(p, end))
      && AllMarks(states) == AllMarks(states[..n]) + Mark(states[n])
      && AllRanks(states) == AllRanks(states[..n]) + Rank(states[n]) + 1
      && !IsFirst(states[n]) && states[n] != AtEnd && Mark(now) == if marked then 1 else 0
  {
    hide Fits, AllFrames, AllMarks, AllRanks, Next;
    CollectionEnds(states, p, end);
    TopFrames(states);
    TopIsLater(states);
  }

  lemma Endings()
    ensures Ends(AtBlockSequenceEntry, SequenceEnd, true) && Ends(AtFlowSequenceEntry, SequenceEnd, true)
    ensures Ends(AtIndentlessSequenceEntry, SequenceEnd, false)
    ensures Ends(AtBlockMappingKey, MappingEnd, true) && Ends(AtFlowMappingKey, MappingEnd, true)
  {
  }

  // The text a token brings, and the text an event gives on.
  function Content(t: Token): seq<string> {
    if t.kind == AliasToken || (t.kind == ScalarToken && t.value != "") then [t.value] else []
  }

  function Given(e: Event): seq<string> {
    match e
    case Alias(anchor) => [anchor]
    case Scalar(_, _, value, _, _) => if value != "" then [value] else []
    case _ => []
  }

  // The texts of the tokens before i, in order.
  function Contents(tokens: seq<Token>, i: nat): seq<string>
    requires i <= |tokens|
  {
    if i == 0 then [] else Contents(tokens, i - 1) + Content(tokens[i - 1])
  }

  // From the tokens before i to those before j come the texts of e.
  predicate Carries(tokens: seq<Token>, i: nat, j: nat, e: Event)
    requires i <= |tokens| && j <= |tokens|
  {
    if Given(e) == [] then Contents(tokens, j) == Contents(tokens, i) else Contents(tokens, j) == Contents(tokens, i) + Given(e)
  }

  lemma EndsMark(now: PState, end: Event, marked: bool)
    requires Ends(now, end, marked)
    ensures Mark(now) == (if marked then 1 else 0) && Given(end) == []
  {
  }

  lemma AwaitsSome(states: seq<PState>, p: Progress)
    requires AwaitsNode(states, p)
    ensures states != [] && Stacked(states)
  {
  }

  // ---------- what a step keeps ----------

  ghost predicate Good(tokens: seq<Token>, c: Config, p: Progress) {
    && c.pos <= |tokens|
    && Fits(c.state, c.states, p)
    && c.marks == AllMarks(c.states) + Mark(c.state)
    && (IsFirst(c.state) ==> c.pos < |tokens| && Opens(tokens[c.pos].kind))
  }

  // Bounds on the events still to come after a node, and on those still to come.
  function Left(tokens: seq<Token>, c: Config): int {
    8 * (|tokens| - c.pos) + AllRanks(c.states)
  }

  function EventsLeft(tokens: seq<Token>, c: Config): int {
    Left(tokens, c) + Rank(c.state)
  }

  // If a step from c gives an event, it continues the events so far, brings the
  // texts of the tokens taken, and uses up what bounds the events to come.
  ghost predicate Fine(tokens: seq<Token>, c: Config, p: Progress, o: Outcome, k: int) {
    o.Gives? ==>
      && c.pos <= |tokens| && Good(tokens, o.next, Next(p, o.event)) && o.next.pos <= |tokens|
      && Carries(tokens, c.pos, o.next.pos, o.event)
      && EventsLeft(tokens, o.next) < Left(tokens, c) + k
  }

  // The token at hand brings no text.
  predicate Mute(tokens: seq<Token>, i: nat) {
    i < |tokens| && Content(tokens[i]) == []
  }

  // Steps that go on from after some tokens without text.
  lemma FineFrom(tokens: seq<Token>, c: Config, i: nat, p: Progress, o: Outcome, k: int)
    requires c.pos <= i <= |tokens| && Contents(tokens, i) == Contents(tokens, c.pos) && Fine(tokens, c.(pos := i), p, o, k)
    ensures Fine(tokens, c, p, o, k - 8 * (i - c.pos))
  {
    hide Contents, Good, Next, AllRanks, EventsLeft;
  }

  lemma FineOn(tokens: seq<Token>, c: Config, p: Progress, o: Outcome, k: int)
    requires Mute(tokens, c.pos) && Fine(tokens, c.(pos := c.pos + 1), p, o, k)
    ensures Fine(tokens, c, p, o, k - 8)
  {
    MuteSkips(tokens, c.pos);
    hide Fine, Contents;
    FineFrom(tokens, c, c.pos + 1, p, o, k);
  }

  lemma MuteSkips(tokens: seq<Token>, i: nat)
    requires Mute(tokens, i)
    ensures Contents(tokens, i + 1) == Contents(tokens, i)
  {
  }

  lemma ContentsMore(tokens: seq<Token>, i: nat)
    requires i < |tokens|
    ensures Contents(tokens, i + 1) == Contents(tokens, i) + Content(tokens[i])
    ensures Content(tokens[i]) == [] ==> Contents(tokens, i + 1) == Contents(tokens, i)
  {
  }

  // A node is to come.
  ghost predicate NodeReady(tokens: seq<Token>, c: Config, p: Progress) {
    c.pos <= |tokens| && AwaitsNode(c.states, p) && c.marks == AllMarks(c.states)
  }

  // The top state goes on after a scalar or an alias.
  lemma PoppedFine(tokens: seq<Token>, c: Config, p: Progress, e: Event, skip: bool)
    requires NodeReady(tokens, c, p) && (e.Scalar? || e.Alias?) && (skip ==> c.pos < |tokens|)
    requires Given(e) == if skip then Content(tokens[c.pos]) else []
    ensures Fine(tokens, c, p, Popped(c.(pos := if skip then c.pos + 1 else c.pos), e), 2)
  {
    hide Fits, Next, AllFrames, AllMarks, AllRanks, IsFirst, Mark, Rank, Frames, Before, AwaitsNode, Stacked, Given, Content, Contents, Takes, Feed;
    if skip { ContentsMore(tokens, c.pos); }
    AwaitsSome(c.states, p);
    TopFrames(c.states);
    NodePops(c.states, p, e);
    TopIsLater(c.states);
  }

  lemma StartFine(tokens: seq<Token>, c: Config, p: Progress, e: Event, q: PState)
    requires NodeReady(tokens, c, p) && c.pos < |tokens|
    requires q == AtIndentlessSequenceEntry || (IsFirst(q) && Opens(tokens[c.pos].kind))
    requires (e.SequenceStart? && Frames(q) == [InSequence]) || (e.MappingStart? && Frames(q) == [AtKey])
    ensures Fine(tokens, c, p, Gives(e, c.(state := q)), 2)
  {
    hide Fits, AllMarks, AllRanks, Next, AwaitsNode, Frames, Contents;
    NodeOpens(c.states, p, e, q);
  }

  lemma ContentFine(tokens: seq<Token>, c: Config, p: Progress, block: bool, indentless: bool, anchor: string, tag: string)
    requires NodeReady(tokens, c, p) && c.pos < |tokens|
    ensures Fine(tokens, c, p, ContentStep(tokens, c, block, indentless, anchor, tag), 2)
  {
    hide NodeReady, Popped, Fine;
    NothingFine(tokens, c, p, 2);
    var o := ContentStep(tokens, c, block, indentless, anchor, tag);
    if tokens[c.pos].kind == ScalarToken {
      PoppedFine(tokens, c, p, ScalarOf(tokens[c.pos], anchor, tag), true);
    } else if StartStep(tokens, c, block, indentless, anchor, tag).Gives? {
      StartFine(tokens, c, p, o.event, o.next.state);
    } else {
      PoppedFine(tokens, c, p, Scalar(anchor, tag, "", tag == "", false), false);
    }
  }

  lemma NothingFine(tokens: seq<Token>, c: Config, p: Progress, k: int)
    ensures Fine(tokens, c, p, Fails, k)
  {
  }

  lemma PropertiesMute(tokens: seq<Token>, i: nat, tags: seq<TagDirective>)
    ensures match PropertiesAt(tokens, i, tags)
      case NoProperties => true
      case Properties(anchor, tag, j) => i <= j < |tokens| && Contents(tokens, j) == Contents(tokens, i)
  {
    hide Contents, TagOf;
    if Mute(tokens, i) { MuteSkips(tokens, i); }
    if Mute(tokens, i + 1) { MuteSkips(tokens, i + 1); }
  }

  lemma NodeFine(tokens: seq<Token>, c: Config, p: Progress, block: bool, indentless: bool)
    requires NodeReady(tokens, c, p)
    ensures Fine(tokens, c, p, NodeStep(tokens, c, block, indentless), 2)
  {
    hide AwaitsNode, Popped, AllMarks, ContentStep, PropertiesAt, Contents, Good, Carries, EventsLeft, Left, Next;
    if Is(tokens, c.pos, AliasToken) {
      PoppedFine(tokens, c, p, Alias(tokens[c.pos].value), true);
    } else {
      PropertiesMute(tokens, c.pos, c.tags);
      match PropertiesAt(tokens, c.pos, c.tags)
      case NoProperties =>
      case Properties(anchor, tag, i) =>
        ContentFine(tokens, c.(pos := i), p, block, indentless, anchor, tag);
        FineFrom(tokens, c, i, p, ContentStep(tokens, c.(pos := i), block, indentless, anchor, tag), 2);
    }
  }

  // Inside a collection where the frames are those of now; its first token is taken.
  ghost predicate Within(tokens: seq<Token>, c: Config, p: Progress, now: PState) {
    && c.pos <= |tokens| && Inside(now) && c.states != [] && Stacked(c.states)
    && p == Open(AllFrames(c.states) + Frames(now)) && c.marks == AllMarks(c.states) + Mark(now)
  }

  lemma WithinOn(tokens: seq<Token>, c: Config, p: Progress, now: PState)
    requires Within(tokens, c, p, now) && c.pos < |tokens|
    ensures Within(tokens, c.(pos := c.pos + 1), p, now)
  {
    hide Stacked, AllFrames, Frames, AllMarks, Mark, Inside;
  }

  lemma ThenNodeFine(tokens: seq<Token>, c: Config, p: Progress, now: PState, q: PState, block: bool, indentless: bool)
    requires Within(tokens, c, p, now) && Leads(now, q)
    ensures Fine(tokens, c, p, ThenNode(tokens, c, q, block, indentless), Rank(q) + 3)
  {
    hide NodeStep, Rank, AllRanks, AllMarks, AllFrames, Frames, Before, Mark, Resumes, Stacked, Good, Carries, EventsLeft, Next, Contents;
    PushAwaits(c.states, q, p);
    PushedFrames(c.states, q);
    NodeFine(tokens, c.(states := c.states + [q]), p, block, indentless);
  }

  lemma ThenEmptyFine(tokens: seq<Token>, c: Config, p: Progress, now: PState, q: PState)
    requires Within(tokens, c, p, now) && Leads(now, q)
    ensures Fine(tokens, c, p, ThenEmpty(c, q), Rank(q) + 1)
  {
    hide Fits, Rank, AllRanks, AllMarks, AllFrames, Frames, Before, Mark, Stacked, Next, Resumes, IsFirst, Inside, Contents;
    EmptyNode(c.states, q, p, EMPTY);
    ResumesLater(q);
  }

  lemma ResumesLater(q: PState)
    ensures Resumes(q) ==> !IsFirst(q)
  {
  }

  lemma EndFine(tokens: seq<Token>, c: Config, p: Progress, now: PState, end: Event, marked: bool)
    requires Within(tokens, c, p, now) && Ends(now, end, marked) && (marked ==> Mute(tokens, c.pos))
    ensures Fine(tokens, c, p, if marked then EndMarked(c, end) else Popped(c, end), 1)
  {
    hide Fits, Next, Frames, AllFrames, AllMarks, AllRanks, Ends, Stacked, IsFirst, Mark, Rank, Contents, Inside, Given, Content, Opens;
    EndsMark(now, end, marked);
    EndingMeans(c.states, now, end, marked, p);
    if marked { MuteSkips(tokens, c.pos); }
  }

  // ---------- in each state ----------

  lemma BlockSequenceFine(tokens: seq<Token>, c: Config, p: Progress)
    requires Within(tokens, c, p, AtBlockSequenceEntry)
    ensures Fine(tokens, c, p, BlockSequenceStep(tokens, c), 1)
  {
    hide ThenNode, ThenEmpty, EndMarked, Popped, Within, Good, Next, Carries, EventsLeft, Left, Leads, Ends, Rank;
    Successions();
    Endings();
    if Is(tokens, c.pos, BlockEntryToken) {
      ItemFine(tokens, c, p, AtBlockSequenceEntry, AtBlockSequenceEntry, true, false);
    } else if Is(tokens, c.pos, BlockEndToken) {
      EndFine(tokens, c, p, AtBlockSequenceEntry, SequenceEnd, true);
    }
  }

  // A token without text, then a node or nothing, and then q.
  lemma ItemFine(tokens: seq<Token>, c: Config, p: Progress, now: PState, q: PState, block: bool, indentless: bool)
    requires Within(tokens, c, p, now) && Leads(now, q) && Rank(q) <= 3 && Mute(tokens, c.pos)
    ensures var d := c.(pos := c.pos + 1);
      Fine(tokens, c, p, ThenNode(tokens, d, q, block, indentless), 0) && Fine(tokens, c, p, ThenEmpty(d, q), 0)
  {
    hide ThenNode, ThenEmpty, Within, Good, Next, Carries, EventsLeft, Left, Contents, Leads, Rank, Content;
    var d := c.(pos := c.pos + 1);
    WithinOn(tokens, c, p, now);
    ThenNodeFine(tokens, d, p, now, q, block, indentless);
    FineOn(tokens, c, p, ThenNode(tokens, d, q, block, indentless), Rank(q) + 3);
    ThenEmptyFine(tokens, d, p, now, q);
    FineOn(tokens, c, p, ThenEmpty(d, q), Rank(q) + 1);
  }

  lemma IndentlessFine(tokens: seq<Token>, c: Config, p: Progress)
    requires Within(tokens, c, p, AtIndentlessSequenceEntry)
    ensures Fine(tokens, c, p, IndentlessStep(tokens, c), 1)
  {
    hide ThenNode, ThenEmpty, EndMarked, Popped, Within, Good, Next, Carries, EventsLeft, Left, Leads, Ends, Rank;
    Successions();
    Endings();
    if Is(tokens, c.pos, BlockEntryToken) {
      ItemFine(tokens, c, p, AtIndentlessSequenceEntry, AtIndentlessSequenceEntry, true, false);
    } else if c.pos < |tokens| {
      EndFine(tokens, c, p, AtIndentlessSequenceEntry, SequenceEnd, false);
    }
  }

  lemma BlockKeyFine(tokens: seq<Token>, c: Config, p: Progress)
    requires Within(tokens, c, p, AtBlockMappingKey)
    ensures Fine(tokens, c, p, BlockKeyStep(tokens, c), 1)
  {
    hide ThenNode, ThenEmpty, EndMarked, Popped, Within, Good, Next, Carries, EventsLeft, Left, Leads, Ends, Rank;
    Successions();
    Endings();
    if Is(tokens, c.pos, KeyToken) {
      ItemFine(tokens, c, p, AtBlockMappingKey, AtBlockMappingValue, true, true);
    } else if Is(tokens, c.pos, BlockEndToken) {
      EndFine(tokens, c, p, AtBlockMappingKey, MappingEnd, true);
    }
  }

  lemma BlockValueFine(tokens: seq<Token>, c: Config, p: Progress)
    requires Within(tokens, c, p, AtBlockMappingValue)
    ensures Fine(tokens, c, p, BlockValueStep(tokens, c), 2)
  {
    hide ThenNode, ThenEmpty, EndMarked, Popped, Within, Good, Next, Carries, EventsLeft, Left, Leads, Ends, Rank;
    Successions();
    Endings();
    if Is(tokens, c.pos, ValueToken) {
      ItemFine(tokens, c, p, AtBlockMappingValue, AtBlockMappingKey, true, true);
    } else {
      ThenEmptyFine(tokens, c, p, AtBlockMappingValue, AtBlockMappingKey);
    }
  }

  // A key in a flow sequence starts a mapping of one pair.
  lemma PairFine(tokens: seq<Token>, c: Config, p: Progress, e: Event)
    requires Within(tokens, c, p, AtFlowSequenceEntry) && e.MappingStart? && Mute(tokens, c.pos)
    ensures Fine(tokens, c, p, Gives(e, c.(pos := c.pos + 1, state := AtFlowSequenceEntryMappingKey)), -1)
  {
    hide Contents, AllFrames, AllRanks, AllMarks, Next, Stacked, Fits;
    MuteSkips(tokens, c.pos);
    PairStarts(c.states, p, e);
  }

  lemma FlowSequenceFine(tokens: seq<Token>, c: Config, p: Progress, first: bool)
    requires Within(tokens, c, p, AtFlowSequenceEntry)
    ensures Fine(tokens, c, p, FlowSequenceStep(tokens, c, first), if first then 4 else 1)
  {
    hide ThenNode, ThenEmpty, EndMarked, Popped, Within, Good, Next, Carries, EventsLeft, Left, Leads, Ends, Rank;
    Successions();
    Endings();
    hide FlowItemStep;
    var o := FlowSequenceStep(tokens, c, first);
    if Is(tokens, c.pos, FlowSequenceEndToken) {
      EndFine(tokens, c, p, AtFlowSequenceEntry, SequenceEnd, true);
    } else if first {
      FlowItemFine(tokens, c, p);
    } else if Is(tokens, c.pos, FlowEntryToken) && c.pos + 1 < |tokens| {
      WithinOn(tokens, c, p, AtFlowSequenceEntry);
      FlowItemFine(tokens, c.(pos := c.pos + 1), p);
      FineOn(tokens, c, p, o, 4);
    }
  }

  lemma FlowItemFine(tokens: seq<Token>, d: Config, p: Progress)
    requires Within(tokens, d, p, AtFlowSequenceEntry)
    ensures Fine(tokens, d, p, FlowItemStep(tokens, d), 4)
  {
    hide ThenNode, ThenEmpty, EndMarked, Popped, Within, Good, Next, Carries, EventsLeft, Left, Leads, Ends, Rank;
    Successions();
    Endings();
    if Is(tokens, d.pos, KeyToken) {
      PairFine(tokens, d, p, MappingStart("", "", true, true));
    }
    ThenNodeFine(tokens, d, p, AtFlowSequenceEntry, AtFlowSequenceEntry, false, false);
    if Is(tokens, d.pos, FlowSequenceEndToken) {
      EndFine(tokens, d, p, AtFlowSequenceEntry, SequenceEnd, true);
    }
  }

  lemma FlowPairKeyFine(tokens: seq<Token>, c: Config, p: Progress)
    requires Within(tokens, c, p, AtFlowSequenceEntryMappingKey)
    ensures Fine(tokens, c, p, FlowPairKeyStep(tokens, c), 6)
  {
    hide ThenNode, ThenEmpty, EndMarked, Popped, Within, Good, Next, Carries, EventsLeft, Left, Leads, Ends, Rank;
    Successions();
    Endings();
    ThenNodeFine(tokens, c, p, AtFlowSequenceEntryMappingKey, AtFlowSequenceEntryMappingValue, false, false);
    if Is(tokens, c.pos, ValueToken) || Is(tokens, c.pos, FlowEntryToken) || Is(tokens, c.pos, FlowSequenceEndToken) {
      ItemFine(tokens, c, p, AtFlowSequenceEntryMappingKey, AtFlowSequenceEntryMappingValue, false, false);
    }
  }

  lemma FlowPairValueFine(tokens: seq<Token>, c: Config, p: Progress)
    requires Within(tokens, c, p, AtFlowSequenceEntryMappingValue)
    ensures Fine(tokens, c, p, FlowPairValueStep(tokens, c), 3)
  {
    hide ThenNode, ThenEmpty, EndMarked, Popped, Within, Good, Next, Carries, EventsLeft, Left, Leads, Ends, Rank;
    Successions();
    Endings();
    if Is(tokens, c.pos, ValueToken) {
      ItemFine(tokens, c, p, AtFlowSequenceEntryMappingValue, AtFlowSequenceEntryMappingEnd, false, false);
    } else {
      ThenEmptyFine(tokens, c, p, AtFlowSequenceEntryMappingValue, AtFlowSequenceEntryMappingEnd);
    }
  }

  lemma FlowPairEndFine(tokens: seq<Token>, c: Config, p: Progress)
    requires Within(tokens, c, p, AtFlowSequenceEntryMappingEnd)
    ensures Fine(tokens, c, p, FlowPairEndStep(tokens, c), 2)
  {
    hide Contents, AllFrames, AllRanks, AllMarks, Next, Stacked, Fits;
    PairEnds(c.states, p);
  }

  lemma FlowAfterKeyFine(tokens: seq<Token>, c: Config, p: Progress)
    requires Within(tokens, c, p, AtFlowMappingKey)
    ensures Fine(tokens, c, p, FlowAfterKeyStep(tokens, c), 5)
  {
    hide ThenNode, ThenEmpty, EndMarked, Popped, Within, Good, Next, Carries, EventsLeft, Left, Leads, Ends, Rank;
    Successions();
    Endings();
    ThenNodeFine(tokens, c, p, AtFlowMappingKey, AtFlowMappingValue, false, false);
    ThenEmptyFine(tokens, c, p, AtFlowMappingKey, AtFlowMappingValue);
  }

  lemma FlowKeyFine(tokens: seq<Token>, c: Config, p: Progress, first: bool)
    requires Within(tokens, c, p, AtFlowMappingKey)
    ensures Fine(tokens, c, p, FlowKeyStep(tokens, c, first), if first then 5 else 1)
  {
    hide ThenNode, ThenEmpty, EndMarked, Popped, Within, Good, Next, Carries, EventsLeft, Left, Leads, Ends, Rank;
    Successions();
    Endings();
    hide FlowEntryStep;
    var o := FlowKeyStep(tokens, c, first);
    if Is(tokens, c.pos, FlowMappingEndToken) {
      EndFine(tokens, c, p, AtFlowMappingKey, MappingEnd, true);
    } else if first {
      FlowEntryFine(tokens, c, p);
    } else if Is(tokens, c.pos, FlowEntryToken) && c.pos + 1 < |tokens| {
      WithinOn(tokens, c, p, AtFlowMappingKey);
      FlowEntryFine(tokens, c.(pos := c.pos + 1), p);
      FineOn(tokens, c, p, o, 5);
    }
  }

  lemma FlowEntryFine(tokens: seq<Token>, d: Config, p: Progress)
    requires Within(tokens, d, p, AtFlowMappingKey)
    ensures Fine(tokens, d, p, FlowEntryStep(tokens, d), 5)
  {
    hide ThenNode, ThenEmpty, EndMarked, Popped, Within, Good, Next, Carries, EventsLeft, Left, Leads, Ends, Rank;
    Successions();
    Endings();
    hide FlowAfterKeyStep;
    if Is(tokens, d.pos, KeyToken) {
      WithinOn(tokens, d, p, AtFlowMappingKey);
      FlowAfterKeyFine(tokens, d.(pos := d.pos + 1), p);
      FineOn(tokens, d, p, FlowAfterKeyStep(tokens, d.(pos := d.pos + 1)), 5);
    }
    ThenNodeFine(tokens, d, p, AtFlowMappingKey, AtFlowMappingEmptyValue, false, false);
    if Is(tokens, d.pos, FlowMappingEndToken) {
      EndFine(tokens, d, p, AtFlowMappingKey, MappingEnd, true);
    }
  }

  lemma FlowValueFine(tokens: seq<Token>, c: Config, p: Progress, empty: bool)
    requires Within(tokens, c, p, if empty then AtFlowMappingEmptyValue else AtFlowMappingValue)
    ensures Fine(tokens, c, p, FlowValueStep(tokens, c, empty), 2)
  {
    hide ThenNode, ThenEmpty, EndMarked, Popped, Within, Good, Next, Carries, EventsLeft, Left, Leads, Ends, Rank;
    Successions();
    Endings();
    if !empty && Is(tokens, c.pos, ValueToken) {
      ItemFine(tokens, c, p, AtFlowMappingValue, AtFlowMappingKey, false, false);
    }
    ThenEmptyFine(tokens, c, p, if empty then AtFlowMappingEmptyValue else AtFlowMappingValue, AtFlowMappingKey);
  }

  lemma {:induction false} DirectivesMute(tokens: seq<Token>, i: nat, tags: seq<TagDirective>, version: bool)
    ensures match DirectivesAt(tokens, i, tags, version)
      case BadDirectives => true
      case Directives(_, j) => i <= j < |tokens| && Contents(tokens, j) == Contents(tokens, i)
    decreases |tokens| - i
  {
    hide Contents, WithDefaults, Defined;
    if Is(tokens, i, VersionDirectiveToken) {
      MuteSkips(tokens, i);
      DirectivesMute(tokens, i + 1, tags, true);
    } else if Is(tokens, i, TagDirectiveToken) {
      MuteSkips(tokens, i);
      DirectivesMute(tokens, i + 1, tags + [TagDirective(tokens[i].value, tokens[i].prefix)], version);
    }
  }

  lemma {:induction false} DocumentEndsMute(tokens: seq<Token>, i: nat)
    requires i <= |tokens|
    ensures Contents(tokens, PastDocumentEnds(tokens, i)) == Contents(tokens, i)
    decreases |tokens| - i
  {
    hide Contents;
    if Is(tokens, i, DocumentEndToken) {
      MuteSkips(tokens, i);
      DocumentEndsMute(tokens, i + 1);
    }
  }

  // Between documents.
  predicate Outside(tokens: seq<Token>, c: Config, p: Progress) {
    c.pos <= |tokens| && c.states == [] && c.marks == 0 && p == Open([InStream])
  }

  lemma NoRanks()
    ensures AllRanks([]) == 0
  {
  }

  lemma DocumentBegins(tokens: seq<Token>, c: Config, p: Progress, q: PState, tags: seq<TagDirective>)
    requires Outside(tokens, c, p) && (q == AtBlockNode || q == AtDocumentContent)
    ensures Fine(tokens, c, p, Gives(DocumentStart, c.(state := q, states := c.states + [AtDocumentEnd], tags := tags)), 6)
  {
    hide Fits, Rank, Mark, IsFirst, AllMarks, AllRanks, Next, Contents;
    DocumentFits(q);
    assert c.states + [AtDocumentEnd] == [AtDocumentEnd];
    NoRanks();
  }

  lemma StreamEnds(tokens: seq<Token>, c: Config, p: Progress)
    requires Outside(tokens, c, p) && Is(tokens, c.pos, StreamEndToken)
    ensures Fine(tokens, c, p, Gives(StreamEnd, c.(pos := c.pos + 1, state := AtEnd)), -7)
  {
    hide Fits, Rank, Mark, IsFirst, AllMarks, AllRanks, AllFrames, Contents, Next, Opens;
    EndFits();
    MuteSkips(tokens, c.pos);
  }

  lemma ExplicitFine(tokens: seq<Token>, c: Config, p: Progress)
    requires Outside(tokens, c, p)
    ensures Fine(tokens, c, p, ExplicitStep(tokens, c), -2)
  {
    hide Good, Next, Carries, Contents, EventsLeft, Left, DirectivesAt;
    DirectivesMute(tokens, c.pos, c.tags, false);
    match DirectivesAt(tokens, c.pos, c.tags, false)
    case BadDirectives =>
    case Directives(tags, i) =>
      if Is(tokens, i, DocumentStartToken) {
        var o := ExplicitStep(tokens, c);
        DocumentBegins(tokens, c.(pos := i + 1), p, AtDocumentContent, tags);
        MuteSkips(tokens, i);
        FineFrom(tokens, c, i + 1, p, o, 6);
      }
  }

  lemma DocumentStartFine(tokens: seq<Token>, c: Config, p: Progress, implicit: bool)
    requires Outside(tokens, c, p)
    ensures Fine(tokens, c, p, DocumentStartStep(tokens, c, implicit), if implicit then 6 else 1)
  {
    hide Good, Next, Carries, Contents, EventsLeft, Left, ExplicitStep, PastDocumentEnds, WithDefaults;
    var d := if implicit then c else c.(pos := PastDocumentEnds(tokens, c.pos));
    DocumentEndsMute(tokens, c.pos);
    var o := DocumentStartStep(tokens, c, implicit);
    if d.pos < |tokens| {
      if implicit && !ExplicitStart(tokens, d.pos) {
        DocumentBegins(tokens, d, p, AtBlockNode, WithDefaults(d.tags));
      } else if !Is(tokens, d.pos, StreamEndToken) {
        ExplicitFine(tokens, d, p);
        FineFrom(tokens, c, d.pos, p, o, -2);
      } else {
        StreamEnds(tokens, d, p);
        FineFrom(tokens, c, d.pos, p, o, -7);
      }
    }
  }

  lemma DocumentContentFine(tokens: seq<Token>, c: Config, p: Progress)
    requires NodeReady(tokens, c, p)
    ensures Fine(tokens, c, p, DocumentContentStep(tokens, c), 2)
  {
    hide Fine, NodeStep, Popped, NodeReady;
    NodeFine(tokens, c, p, true, false);
    PoppedFine(tokens, c, p, EMPTY, false);
  }

  lemma DocumentEndFine(tokens: seq<Token>, c: Config, p: Progress)
    requires Good(tokens, c, p) && c.state == AtDocumentEnd
    ensures Fine(tokens, c, p, DocumentEndStep(tokens, c), 2)
  {
    hide Contents, AllRanks, AllMarks, AllFrames;
    LeavesTop([InStream], AfterRoot);
    assert [InStream] + [AfterRoot] == [InStream, AfterRoot];
    if Is(tokens, c.pos, DocumentEndToken) { MuteSkips(tokens, c.pos); }
  }

  // What a good state stands for.
  lemma GoodMeans(tokens: seq<Token>, c: Config, p: Progress)
    requires Good(tokens, c, p)
    ensures p != Bad && c.pos <= |tokens| && c.state != AtFlowNode && c.state != AtBlockNodeOrIndentlessSequence
    ensures c.state == AtEnd ==> p == Closed
    ensures c.state == AtImplicitDocumentStart || c.state == AtDocumentStart ==> Outside(tokens, c, p)
    ensures c.state == AtBlockNode || c.state == AtDocumentContent ==> NodeReady(tokens, c, p)
  {
    hide AllFrames, AllRanks, Contents, Opens;
    if c.state == AtBlockNode || c.state == AtDocumentContent { DocumentAwaits(p); }
  }

  lemma DocumentAwaits(p: Progress)
    requires p == Open([InStream, InDocument])
    ensures AwaitsNode([AtDocumentEnd], p)
  {
    assert [AtDocumentEnd][..0] == [];
    assert [] + Before(AtDocumentEnd) == [InStream, InDocument];
  }

  lemma GoodInside(tokens: seq<Token>, c: Config, p: Progress)
    requires Good(tokens, c, p) && Inside(c.state)
    ensures c.states != [] && (!IsFirst(c.state) ==> Within(tokens, c, p, c.state))
  {
    hide AllFrames, AllMarks, Mark, Contents, Opens, Stacked;
  }

  // The first state of a collection takes its start token and marks it.
  lemma EnteredWithin(tokens: seq<Token>, c: Config, p: Progress, q: PState)
    requires Good(tokens, c, p) && IsFirst(c.state) && Resumes(q) && Frames(q) == Frames(c.state) && Mark(q) == 1
    ensures Within(tokens, Entered(c, true), p, q) && Mute(tokens, c.pos)
  {
    hide AllFrames, Contents, Stacked, AllMarks;
  }

  lemma EnteredFine(tokens: seq<Token>, c: Config, p: Progress, o: Outcome, k: int)
    requires Mute(tokens, c.pos) && Fine(tokens, Entered(c, true), p, o, k) && k <= 9
    ensures Fine(tokens, c, p, o, 1)
  {
    hide AllRanks, Contents, Good, Next, EventsLeft;
    MuteSkips(tokens, c.pos);
  }

  // One step from a good state: the events go on well-nested, no text is lost,
  // and the bound on the events to come shrinks.
  lemma StepFine(tokens: seq<Token>, c: Config, p: Progress)
    requires Good(tokens, c, p) && c.state != AtEnd
    ensures Fine(tokens, c, p, Step(tokens, c), Rank(c.state))
  {
    if IsFirst(c.state) {
      FirstFine(tokens, c, p);
    } else if Inside(c.state) {
      GoodInside(tokens, c, p);
      InsideFine(tokens, c, p);
    } else {
      OutsideFine(tokens, c, p);
    }
  }

  lemma FirstFine(tokens: seq<Token>, c: Config, p: Progress)
    requires Good(tokens, c, p) && IsFirst(c.state)
    ensures Fine(tokens, c, p, Step(tokens, c), Rank(c.state))
  {
    hide Good, Within, Fine, BlockSequenceStep, BlockKeyStep, FlowSequenceStep, FlowKeyStep;
    var d, o := Entered(c, true), Step(tokens, c);
    match c.state
    case AtBlockSequenceFirstEntry =>
      EnteredWithin(tokens, c, p, AtBlockSequenceEntry);
      BlockSequenceFine(tokens, d, p);
      EnteredFine(tokens, c, p, o, 1);
    case AtBlockMappingFirstKey =>
      EnteredWithin(tokens, c, p, AtBlockMappingKey);
      BlockKeyFine(tokens, d, p);
      EnteredFine(tokens, c, p, o, 1);
    case AtFlowSequenceFirstEntry =>
      EnteredWithin(tokens, c, p, AtFlowSequenceEntry);
      FlowSequenceFine(tokens, d, p, true);
      EnteredFine(tokens, c, p, o, 4);
    case AtFlowMappingFirstKey =>
      EnteredWithin(tokens, c, p, AtFlowMappingKey);
      FlowKeyFine(tokens, d, p, true);
      EnteredFine(tokens, c, p, o, 5);
  }

  lemma InsideFine(tokens: seq<Token>, c: Config, p: Progress)
    requires Within(tokens, c, p, c.state) && Inside(c.state) && !IsFirst(c.state)
    ensures Fine(tokens, c, p, Step(tokens, c), Rank(c.state))
  {
    hide Fine, Within, BlockSequenceStep, IndentlessStep, BlockKeyStep, BlockValueStep, FlowSequenceStep, FlowPairKeyStep,
      FlowPairValueStep, FlowPairEndStep, FlowKeyStep, FlowValueStep;
    match c.state
    case AtBlockSequenceEntry => BlockSequenceFine(tokens, c, p);
    case AtIndentlessSequenceEntry => IndentlessFine(tokens, c, p);
    case AtBlockMappingKey => BlockKeyFine(tokens, c, p);
    case AtBlockMappingValue => BlockValueFine(tokens, c, p);
    case AtFlowSequenceEntry => FlowSequenceFine(tokens, c, p, false);
    case AtFlowSequenceEntryMappingKey => FlowPairKeyFine(tokens, c, p);
    case AtFlowSequenceEntryMappingValue => FlowPairValueFine(tokens, c, p);
    case AtFlowSequenceEntryMappingEnd => FlowPairEndFine(tokens, c, p);
    case AtFlowMappingKey => FlowKeyFine(tokens, c, p, false);
    case AtFlowMappingValue => FlowValueFine(tokens, c, p, false);
    case AtFlowMappingEmptyValue => FlowValueFine(tokens, c, p, true);
  }

  lemma StreamStartFine(tokens: seq<Token>, c: Config, p: Progress)
    requires Good(tokens, c, p) && c.state == AtStreamStart
    ensures Fine(tokens, c, p, Step(tokens, c), 1)
  {
    hide Contents;
    if Is(tokens, c.pos, StreamStartToken) { MuteSkips(tokens, c.pos); }
  }

  lemma OutsideFine(tokens: seq<Token>, c: Config, p: Progress)
    requires Good(tokens, c, p) && !Inside(c.state) && c.state != AtEnd
    ensures Fine(tokens, c, p, Step(tokens, c), Rank(c.state))
  {
    hide Fine, Good, NodeStep, DocumentStartStep, DocumentContentStep, DocumentEndStep, NodeReady, Outside;
    GoodMeans(tokens, c, p);
    match c.state
    case AtStreamStart => StreamStartFine(tokens, c, p);
    case AtImplicitDocumentStart => DocumentStartFine(tokens, c, p, true);
    case AtDocumentStart => DocumentStartFine(tokens, c, p, false);
    case AtDocumentContent => DocumentContentFine(tokens, c, p);
    case AtDocumentEnd => DocumentEndFine(tokens, c, p);
    case AtBlockNode => NodeFine(tokens, c, p, true, false);
  }

  // ---------- the parser ----------

  // A call comes to o: it fails, or gives the event and leaves the parser at next.
  predicate Came(ok: bool, event: Event, next: Config, o: Outcome) {
    o == if ok then Gives(event, next) else Fails
  }

  // Enough for no stack to be popped empty.
  predicate Safe(tokens: seq<Token>, c: Config) {
    && c.pos <= |tokens|
    && (Inside(c.state) || c.state == AtDocumentContent || c.state == AtBlockNode ==> c.states != [])
    && (Mark(c.state) == 1 ==> c.marks > 0)
    && (IsFirst(c.state) ==> c.pos < |tokens| && Opens(tokens[c.pos].kind))
    && c.state != AtEnd && c.state != AtFlowNode && c.state != AtBlockNodeOrIndentlessSequence
  }

  lemma GoodIsSafe(tokens: seq<Token>, c: Config, p: Progress)
    requires Good(tokens, c, p) && c.state != AtEnd
    ensures Safe(tokens, c)
  {
    hide Fits, AllMarks, NodeReady, Outside;
    GoodMeans(tokens, c, p);
    if Inside(c.state) { GoodInside(tokens, c, p); }
    NodeReadyMeans(tokens, c, p);
  }

  lemma NodeReadyMeans(tokens: seq<Token>, c: Config, p: Progress)
    ensures NodeReady(tokens, c, p) ==> c.states != []
  {
  }

  class Parser {
    const tokens: seq<Token>
    var pos: nat
    var state: PState
    var states: seq<PState>
    var marks: seq<nat>
    var tagDirectives: seq<TagDirective>
    var streamEndProduced: bool
    var failed: bool
    var problem: string
    // The events given so far.
    ghost var progress: Progress

    function Snap(): Config
      reads this`pos, this`state, this`states, this`marks, this`tagDirectives
    {
      Config(pos, state, states, |marks|, tagDirectives)
    }

    ghost predicate Valid()
      reads this
    {
      failed || (Good(tokens, Snap(), progress) && (streamEndProduced ==> state == AtEnd))
    }

    // The tokens taken from the position i on bring what e gives.
    ghost predicate Carried(i: nat, e: Event)
      reads this`pos
    {
      i <= |tokens| && pos <= |tokens| && Carries(tokens, i, pos, e)
    }

    // A bound on the events still to come.
    ghost function Potential(): int
      reads this`pos, this`state, this`states, this`marks, this`tagDirectives
    {
      EventsLeft(tokens, Snap())
    }

    // Neither at the end nor failed.
    ghost predicate Going()
      reads this`pos, this`streamEndProduced, this`failed
    {
      pos <= |tokens| && !streamEndProduced && !failed
    }

    // What a call has come to, and whether the parser goes on.
    ghost predicate Done(ok: bool, event: Event, o: Outcome)
      reads this`pos, this`state, this`states, this`marks, this`tagDirectives, this`streamEndProduced, this`failed
    {
      Came(ok, event, Snap(), o) && if ok then Going() else failed
    }

    constructor (tokens: seq<Token>)
      ensures this.tokens == tokens && progress == Fresh && !failed && Snap() == START
      ensures Valid()
    {
      this.tokens := tokens;
      pos, state, states, marks, tagDirectives := 0, AtStreamStart, [], [], [];
      streamEndProduced, failed, problem, progress := false, false, "", Fresh;
    }

    // Beyond the last token the scanner fails.
    method PeekToken() returns (t: Option<Token>)
      requires pos <= |tokens|
      modifies this`failed, this`problem
      ensures pos < |tokens| ==> t == Some(tokens[pos]) && failed == old(failed)
      ensures pos == |tokens| ==> t == None && failed
      ensures Snap() == old(Snap()) && Snap().pos == pos
    {
      if pos < |tokens| {
        t := Some(tokens[pos]);
      } else {
        failed, problem, t := true, "could not find expected token", None;
      }
    }

    method SkipToken()
      requires pos < |tokens|
      modifies this`pos, this`streamEndProduced
      ensures pos == old(pos) + 1 && streamEndProduced == (tokens[old(pos)].kind == StreamEndToken)
      ensures Snap() == old(Snap()).(pos := pos)
    {
      streamEndProduced := tokens[pos].kind == StreamEndToken;
      pos := pos + 1;
    }

    method Fail(message: string) returns (ok: bool)
      modifies this`failed, this`problem
      ensures failed && !ok
    {
      failed, problem, ok := true, message, false;
    }

    method PopState()
      requires states != []
      modifies this`state, this`states
      ensures state == old(states)[|old(states)| - 1] && states == old(states)[..|old(states)| - 1]
    {
      state, states := states[|states| - 1], states[..|states| - 1];
    }

    method PopMark()
      requires marks != []
      modifies this`marks
      ensures marks == old(marks)[..|old(marks)| - 1]
    {
      marks := marks[..|marks| - 1];
    }

    // ---------- stream and documents ----------

    method ParseStreamStart() returns (ok: bool, event: Event)
      requires Going()
      modifies this`pos, this`state, this`streamEndProduced, this`failed, this`problem
      ensures Done(ok, event, StreamStartStep(tokens, old(Snap())))
    {
      event := NoEvent;
      var token := PeekToken();
      if token == None {
        return false, event;
      }
      if token.value.kind != StreamStartToken {
        ok := Fail("did not find expected <stream-start>");
        return;
      }
      state := AtImplicitDocumentStart;
      event := StreamStart;
      SkipToken();
      ok := true;
    }

    method AppendTagDirective(value: TagDirective, allowDuplicates: bool) returns (ok: bool)
      modifies this`tagDirectives, this`failed, this`problem
      ensures if ok then failed == old(failed) else failed
      ensures if Defined(old(tagDirectives), value.handle) then ok == allowDuplicates && tagDirectives == old(tagDirectives)
        else ok && tagDirectives == old(tagDirectives) + [value]
    {
      for i := 0 to |tagDirectives|
        invariant failed == old(failed) && tagDirectives == old(tagDirectives)
        invariant forall k :: 0 <= k < i ==> tagDirectives[k].handle != value.handle
      {
        if value.handle == tagDirectives[i].handle {
          if allowDuplicates {
            return true;
          }
          ok := Fail("found duplicate %TAG directive");
          return;
        }
      }
      tagDirectives := tagDirectives + [value];
      ok := true;
    }

    method ProcessDirectives() returns (ok: bool)
      requires Going()
      modifies this`pos, this`tagDirectives, this`streamEndProduced, this`failed, this`problem
      ensures if ok then Going() && pos < |tokens| else failed
      ensures DirectivesAt(tokens, old(pos), old(tagDirectives), false) == if ok then Directives(tagDirectives, pos) else BadDirectives
    {
      hide Defined, WithDefaults;
      var version := false;
      var token := PeekToken();
      if token == None {
        return false;
      }
      while token.value.kind == VersionDirectiveToken || token.value.kind == TagDirectiveToken
        invariant pos < |tokens| && token == Some(tokens[pos]) && !failed && !streamEndProduced
        invariant DirectivesAt(tokens, old(pos), old(tagDirectives), false) == DirectivesAt(tokens, pos, tagDirectives, version)
        decreases |tokens| - pos
      {
        if token.value.kind == VersionDirectiveToken {
          if version {
            ok := Fail("found duplicate %YAML directive");
            return;
          }
          if token.value.major != 1 || token.value.minor != 1 {
            ok := Fail("found incompatible YAML document");
            return;
          }
          version := true;
        } else {
          var appended := AppendTagDirective(TagDirective(token.value.value, token.value.prefix), false);
          if !appended {
            return false;
          }
        }
        token := NextToken();
        if token == None {
          return false;
        }
      }
      ok := AddDefaults();
    }

    // The two handles that are always there, unless they were given.
    method AddDefaults() returns (ok: bool)
      requires !failed
      modifies this`tagDirectives, this`failed, this`problem
      ensures ok && !failed && tagDirectives == WithDefaults(old(tagDirectives))
    {
      ok := AppendTagDirective(TagDirective("!", "!"), true);
      if ok {
        ok := AppendTagDirective(TagDirective("!!", "tag:yaml.org,2002:"), true);
      }
    }

    method SkipDocumentEnds() returns (token: Option<Token>)
      requires Going() && pos < |tokens|
      modifies this`pos, this`streamEndProduced, this`failed, this`problem
      ensures pos == PastDocumentEnds(tokens, old(pos))
      ensures if token == None then failed && pos == |tokens| else Going() && pos < |tokens| && token.value == tokens[pos]
    {
      token := PeekToken();
      while token.value.kind == DocumentEndToken
        invariant pos < |tokens| && token == Some(tokens[pos]) && !failed && !streamEndProduced
        invariant PastDocumentEnds(tokens, old(pos)) == PastDocumentEnds(tokens, pos)
        decreases |tokens| - pos
      {
        token := NextToken();
        if token == None {
          return;
        }
      }
    }

    // An explicit document: directives, then the start indicator.
    method ParseExplicitDocument() returns (ok: bool)
      requires Going()
      modifies this`pos, this`state, this`states, this`tagDirectives, this`streamEndProduced, this`failed, this`problem
      ensures Done(ok, DocumentStart, ExplicitStep(tokens, old(Snap())))
    {
      hide DirectivesAt;
      ok := ProcessDirectives();
      if !ok {
        return;
      }
      var token := PeekToken();
      if token.value.kind != DocumentStartToken {
        ok := Fail("did not find expected <document start>");
        return;
      }
      states := states + [AtDocumentEnd];
      state := AtDocumentContent;
      SkipToken();
    }

    method ParseDocumentStart(implicit: bool) returns (ok: bool, event: Event)
      requires Going()
      modifies this`pos, this`state, this`states, this`tagDirectives, this`streamEndProduced, this`failed, this`problem
      ensures Came(ok, event, Snap(), DocumentStartStep(tokens, old(Snap()), implicit))
      ensures if ok then !failed && (streamEndProduced ==> state == AtEnd) else failed
    {
      hide DirectivesAt, ExplicitStep;
      event := NoEvent;
      var token := PeekToken();
      if token == None {
        return false, event;
      }
      if !implicit {
        token := SkipDocumentEnds();
        if token == None {
          return false, event;
        }
      }
      if implicit && token.value.kind != VersionDirectiveToken && token.value.kind != TagDirectiveToken
        && token.value.kind != DocumentStartToken && token.value.kind != StreamEndToken {
        NoDirectives(tokens, pos, tagDirectives);
        ok := ProcessDirectives();
        if !ok {
          return;
        }
        states := states + [AtDocumentEnd];
        state := AtBlockNode;
        event := DocumentStart;
      } else if token.value.kind != StreamEndToken {
        event := DocumentStart;
        ok := ParseExplicitDocument();
      } else {
        state := AtEnd;
        event := StreamEnd;
        SkipToken();
        ok := true;
      }
    }

    method ParseDocumentContent() returns (ok: bool, event: Event)
      requires Going() && states != []
      modifies this`pos, this`state, this`states, this`streamEndProduced, this`failed, this`problem
      ensures Done(ok, event, DocumentContentStep(tokens, old(Snap())))
    {
      hide NodeStep;
      BeyondNode(tokens, Snap(), true, false);
      event := NoEvent;
      var token := PeekToken();
      if token == None {
        return false, event;
      }
      if token.value.kind == VersionDirectiveToken || token.value.kind == TagDirectiveToken || token.value.kind == DocumentStartToken
        || token.value.kind == DocumentEndToken || token.value.kind == StreamEndToken {
        PopState();
        return true, EMPTY;
      }
      ok, event := ParseNode(true, false);
    }

    method ParseDocumentEnd() returns (ok: bool, event: Event)
      requires Going()
      modifies this`pos, this`state, this`tagDirectives, this`streamEndProduced, this`failed, this`problem
      ensures Done(ok, event, DocumentEndStep(tokens, old(Snap())))
    {
      event := NoEvent;
      var token := PeekToken();
      if token == None {
        return false, event;
      }
      var implicit := true;
      if token.value.kind == DocumentEndToken {
        SkipToken();
        implicit := false;
      }
      tagDirectives := [];
      state := AtDocumentStart;
      event := DocumentEnd(implicit);
      ok := true;
    }

    // ---------- nodes ----------

    // The anchor and the tag in front of a node, in either order.
    method ParseProperties() returns (ok: bool, anchor: string, tag: string)
      requires Going() && pos < |tokens|
      modifies this`pos, this`streamEndProduced, this`failed, this`problem
      ensures if ok then Going() && pos < |tokens| else failed
      ensures PropertiesAt(tokens, old(pos), tagDirectives) == if ok then Properties(anchor, tag, pos) else NoProperties
    {
      hide TagOf, Snap;
      ok, anchor, tag := false, "", "";
      var token := PeekToken();
      var tagToken, tagHandle, tagSuffix := false, "", "";
      if token.value.kind == AnchorToken {
        anchor := token.value.value;
        token := NextToken();
        if token == None {
          return;
        }
        if token.value.kind == TagToken {
          tagToken, tagHandle, tagSuffix := true, token.value.value, token.value.suffix;
          token := NextToken();
          if token == None {
            return;
          }
        }
      } else if token.value.kind == TagToken {
        tagToken, tagHandle, tagSuffix := true, token.value.value, token.value.suffix;
        token := NextToken();
        if token == None {
          return;
        }
        if token.value.kind == AnchorToken {
          anchor := token.value.value;
          token := NextToken();
          if token == None {
            return;
          }
        }
      }
      ok := true;
      if tagToken {
        ok, tag := TagFor(tagHandle, tagSuffix);
      }
    }

    // Takes the token at hand and looks at the one after it.
    method NextToken() returns (t: Option<Token>)
      requires pos < |tokens| && !failed && tokens[pos].kind != StreamEndToken
      modifies this`pos, this`streamEndProduced, this`failed, this`problem
      ensures pos == old(pos) + 1 && Snap() == old(Snap()).(pos := pos) && !streamEndProduced
      ensures if pos < |tokens| then t == Some(tokens[pos]) && !failed else t == None && failed
    {
      SkipToken();
      t := PeekToken();
    }

    method TagFor(handle: string, suffix: string) returns (ok: bool, tag: string)
      requires !failed
      modifies this`failed, this`problem
      ensures failed == !ok && TagOf(tagDirectives, handle, suffix) == if ok then Some(tag) else None
    {
      if |handle| == 0 {
        return true, suffix;
      }
      tag := ResolveTag(handle, suffix);
      ok := true;
      if |tag| == 0 {
        ok := Fail("found undefined tag handle");
      }
    }

    method ResolveTag(handle: string, suffix: string) returns (tag: string)
      ensures tag == Resolved(tagDirectives, handle, suffix)
    {
      tag := "";
      for i := 0 to |tagDirectives|
        invariant tag == "" && Resolved(tagDirectives, handle, suffix) == Resolved(tagDirectives[i..], handle, suffix)
      {
        if tagDirectives[i].handle == handle {
          tag := tagDirectives[i].prefix + suffix;
          break;
        }
      }
    }

    // The start of a collection; its token stays for the first state to take.
    method ParseStart(block: bool, indentlessSequence: bool, anchor: string, tag: string) returns (found: bool, event: Event)
      requires Going() && pos < |tokens|
      modifies this`state
      ensures Came(found, event, Snap(), StartStep(tokens, old(Snap()), block, indentlessSequence, anchor, tag))
      ensures !found ==> state == old(state)
    {
      found, event := true, NoEvent;
      var kind, implicit := tokens[pos].kind, |tag| == 0;
      if indentlessSequence && kind == BlockEntryToken {
        event := SequenceStart(anchor, tag, implicit, false);
        state := AtIndentlessSequenceEntry;
      } else if kind == FlowSequenceStartToken {
        event := SequenceStart(anchor, tag, implicit, true);
        state := AtFlowSequenceFirstEntry;
      } else if kind == FlowMappingStartToken {
        event := MappingStart(anchor, tag, implicit, true);
        state := AtFlowMappingFirstKey;
      } else if block && kind == BlockSequenceStartToken {
        event := SequenceStart(anchor, tag, implicit, false);
        state := AtBlockSequenceFirstEntry;
      } else if block && kind == BlockMappingStartToken {
        event := MappingStart(anchor, tag, implicit, false);
        state := AtBlockMappingFirstKey;
      } else {
        found := false;
      }
    }

    // What comes after the properties of a node: properties without content
    // are an empty scalar.
    method ParseContent(block: bool, indentlessSequence: bool, anchor: string, tag: string) returns (ok: bool, event: Event)
      requires Going() && pos < |tokens| && states != []
      modifies this`pos, this`state, this`states, this`streamEndProduced, this`failed, this`problem
      ensures Done(ok, event, ContentStep(tokens, old(Snap()), block, indentlessSequence, anchor, tag))
    {
      hide StartStep;
      event := NoEvent;
      var token := PeekToken();
      if token.value.kind == ScalarToken {
        var plainImplicit := (|tag| == 0 && token.value.plain) || tag == "!";
        var quotedImplicit := !plainImplicit && |tag| == 0;
        PopState();
        event := Scalar(anchor, tag, token.value.value, plainImplicit, quotedImplicit);
        SkipToken();
        return true, event;
      }
      ok, event := ParseStart(block, indentlessSequence, anchor, tag);
      if ok {
        return;
      }
      if |anchor| > 0 || |tag| > 0 {
        PopState();
        event := Scalar(anchor, tag, "", |tag| == 0, false);
        return true, event;
      }
      ok := Fail("did not find expected node content");
    }

    method ParseNode(block: bool, indentlessSequence: bool) returns (ok: bool, event: Event)
      requires Going() && states != []
      modifies this`pos, this`state, this`states, this`streamEndProduced, this`failed, this`problem
      ensures Done(ok, event, NodeStep(tokens, old(Snap()), block, indentlessSequence))
    {
      hide ContentStep, PropertiesAt;
      event := NoEvent;
      var token := PeekToken();
      if token == None {
        BeyondProperties(tokens, pos, tagDirectives);
        return false, event;
      }
      if token.value.kind == AliasToken {
        PopState();
        event := Alias(token.value.value);
        SkipToken();
        return true, event;
      }
      var anchor, tag;
      ok, anchor, tag := ParseProperties();
      if ok {
        ok, event := ParseContent(block, indentlessSequence, anchor, tag);
      }
    }

    // ---------- collections ----------

    // Pushes q to go on with, and parses a node.
    method NodeThen(q: PState, block: bool, indentlessSequence: bool) returns (ok: bool, event: Event)
      requires Going()
      modifies this`pos, this`state, this`states, this`streamEndProduced, this`failed, this`problem
      ensures Done(ok, event, ThenNode(tokens, old(Snap()), q, block, indentlessSequence))
    {
      hide NodeStep;
      states := states + [q];
      ok, event := ParseNode(block, indentlessSequence);
    }

    method ProcessEmptyScalar(q: PState) returns (ok: bool, event: Event)
      requires Going()
      modifies this`state
      ensures Done(ok, event, ThenEmpty(old(Snap()), q))
    {
      state := q;
      return true, EMPTY;
    }

    // Ends the collection; the last token of a marked one is taken.
    method EndCollection(end: Event) returns (ok: bool, event: Event)
      requires Going() && states != [] && marks != [] && pos < |tokens| && tokens[pos].kind != StreamEndToken
      modifies this`pos, this`state, this`states, this`marks, this`streamEndProduced
      ensures Done(ok, event, EndMarked(old(Snap()), end))
    {
      PopState();
      PopMark();
      SkipToken();
      ok, event := true, end;
    }

    method EndIndentless() returns (ok: bool, event: Event)
      requires Going() && states != []
      modifies this`state, this`states
      ensures Done(ok, event, Popped(old(Snap()), SequenceEnd))
    {
      PopState();
      ok, event := true, SequenceEnd;
    }

    // Drops the mark of a collection that turns out to be wrong.
    method FailInside(message: string) returns (ok: bool)
      requires marks != []
      modifies this`marks, this`failed, this`problem
      ensures failed && !ok
    {
      PopMark();
      ok := Fail(message);
    }

    // The first state of a collection takes its start token and marks it.
    method Enter(first: bool)
      requires Going() && (first ==> pos < |tokens| && tokens[pos].kind != StreamEndToken)
      modifies this`pos, this`marks, this`streamEndProduced
      ensures Going() && Snap() == Entered(old(Snap()), first) && (first ==> marks != []) && |marks| >= |old(marks)|
    {
      if first {
        marks := marks + [pos];
        SkipToken();
      }
    }

    method ParseBlockSequenceEntry(first: bool) returns (ok: bool, event: Event)
      requires Going() && states != []
      requires if first then pos < |tokens| && tokens[pos].kind != StreamEndToken else marks != []
      modifies this`pos, this`state, this`states, this`marks, this`streamEndProduced, this`failed, this`problem
      ensures Done(ok, event, BlockSequenceStep(tokens, Entered(old(Snap()), first)))
    {
      hide ThenNode, EndMarked, Popped, ThenEmpty, Snap;
      Enter(first);
      event := NoEvent;
      var token := PeekToken();
      if token == None {
        return false, event;
      }
      if token.value.kind == BlockEntryToken {
        token := NextToken();
        if token == None {
          return false, event;
        }
        if token.value.kind != BlockEntryToken && token.value.kind != BlockEndToken {
          ok, event := NodeThen(AtBlockSequenceEntry, true, false);
        } else {
          ok, event := ProcessEmptyScalar(AtBlockSequenceEntry);
        }
      } else if token.value.kind == BlockEndToken {
        ok, event := EndCollection(SequenceEnd);
      } else {
        ok := FailInside("did not find expected '-' indicator");
      }
    }

    method ParseIndentlessSequenceEntry() returns (ok: bool, event: Event)
      requires Going() && states != []
      modifies this`pos, this`state, this`states, this`streamEndProduced, this`failed, this`problem
      ensures Done(ok, event, IndentlessStep(tokens, old(Snap())))
    {
      hide ThenNode, EndMarked, Popped, ThenEmpty, Snap;
      event := NoEvent;
      var token := PeekToken();
      if token == None {
        return false, event;
      }
      if token.value.kind == BlockEntryToken {
        token := NextToken();
        if token == None {
          return false, event;
        }
        if token.value.kind != BlockEntryToken && token.value.kind != KeyToken && token.value.kind != ValueToken
          && token.value.kind != BlockEndToken {
          ok, event := NodeThen(AtIndentlessSequenceEntry, true, false);
        } else {
          ok, event := ProcessEmptyScalar(AtIndentlessSequenceEntry);
        }
      } else {
        ok, event := EndIndentless();
      }
    }

    method ParseBlockMappingKey(first: bool) returns (ok: bool, event: Event)
      requires Going() && states != []
      requires if first then pos < |tokens| && tokens[pos].kind != StreamEndToken else marks != []
      modifies this`pos, this`state, this`states, this`marks, this`streamEndProduced, this`failed, this`problem
      ensures Done(ok, event, BlockKeyStep(tokens, Entered(old(Snap()), first)))
    {
      hide ThenNode, EndMarked, Popped, ThenEmpty, Snap;
      Enter(first);
      event := NoEvent;
      var token := PeekToken();
      if token == None {
        return false, event;
      }
      if token.value.kind == KeyToken {
        token := NextToken();
        if token == None {
          return false, event;
        }
        if token.value.kind != KeyToken && token.value.kind != ValueToken && token.value.kind != BlockEndToken {
          ok, event := NodeThen(AtBlockMappingValue, true, true);
        } else {
          ok, event := ProcessEmptyScalar(AtBlockMappingValue);
        }
      } else if token.value.kind == BlockEndToken {
        ok, event := EndCollection(MappingEnd);
      } else {
        ok := FailInside("did not find expected key");
      }
    }

    method ParseBlockMappingValue() returns (ok: bool, event: Event)
      requires Going()
      modifies this`pos, this`state, this`states, this`streamEndProduced, this`failed, this`problem
      ensures Done(ok, event, BlockValueStep(tokens, old(Snap())))
    {
      hide ThenNode, EndMarked, Popped, ThenEmpty, Snap;
      event := NoEvent;
      var token := PeekToken();
      if token == None {
        return false, event;
      }
      if token.value.kind == ValueToken {
        token := NextToken();
        if token == None {
          return false, event;
        }
        if token.value.kind != KeyToken && token.value.kind != ValueToken && token.value.kind != BlockEndToken {
          ok, event := NodeThen(AtBlockMappingKey, true, true);
          return;
        }
      }
      ok, event := ProcessEmptyScalar(AtBlockMappingKey);
    }

    // Between the entries of a flow collection.
    method TakeFlowEntry(message: string) returns (token: Option<Token>)
      requires Going() && pos < |tokens| && marks != []
      modifies this`pos, this`marks, this`streamEndProduced, this`failed, this`problem
      ensures PastFlowEntry(tokens, old(Snap()), false) == if token == None then None else Some(Snap())
      ensures if token == None then failed else Going() && marks == old(marks) && pos < |tokens| && token.value == tokens[pos] && Snap().pos == pos
    {
      token := PeekToken();
      if token.value.kind == FlowEntryToken {
        token := NextToken();
      } else {
        var ok := FailInside(message);
        token := None;
      }
    }

    method ParseFlowSequenceEntry(first: bool) returns (ok: bool, event: Event)
      requires Going() && states != []
      requires if first then pos < |tokens| && tokens[pos].kind != StreamEndToken else marks != []
      modifies this`pos, this`state, this`states, this`marks, this`streamEndProduced, this`failed, this`problem
      ensures Done(ok, event, FlowSequenceStep(tokens, Entered(old(Snap()), first), first))
    {
      hide FlowItemStep, EndMarked, Snap;
      Enter(first);
      event := NoEvent;
      var token := PeekToken();
      if token == None {
        return false, event;
      }
      if token.value.kind == FlowSequenceEndToken {
        ok, event := EndCollection(SequenceEnd);
        return;
      }
      if !first {
        token := TakeFlowEntry("did not find expected ',' or ']'");
        if token == None {
          return false, event;
        }
      }
      ok, event := FlowItem();
    }

    // A key in a flow sequence starts a mapping of one pair.
    method FlowItem() returns (ok: bool, event: Event)
      requires Going() && states != [] && marks != [] && pos < |tokens|
      modifies this`pos, this`state, this`states, this`marks, this`streamEndProduced, this`failed, this`problem
      ensures Done(ok, event, FlowItemStep(tokens, old(Snap())))
    {
      hide ThenNode, EndMarked;
      var token := PeekToken();
      if token.value.kind == KeyToken {
        state := AtFlowSequenceEntryMappingKey;
        event := MappingStart("", "", true, true);
        SkipToken();
        return true, event;
      } else if token.value.kind != FlowSequenceEndToken {
        ok, event := NodeThen(AtFlowSequenceEntry, false, false);
        return;
      }
      ok, event := EndCollection(SequenceEnd);
    }

    method ParseFlowSequenceEntryMappingKey() returns (ok: bool, event: Event)
      requires Going()
      modifies this`pos, this`state, this`states, this`streamEndProduced, this`failed, this`problem
      ensures Done(ok, event, FlowPairKeyStep(tokens, old(Snap())))
    {
      hide ThenNode, EndMarked, Popped, ThenEmpty, Snap;
      event := NoEvent;
      var token := PeekToken();
      if token == None {
        return false, event;
      }
      if token.value.kind != ValueToken && token.value.kind != FlowEntryToken && token.value.kind != FlowSequenceEndToken {
        ok, event := NodeThen(AtFlowSequenceEntryMappingValue, false, false);
        return;
      }
      // Whichever of the three it is, the token is taken.
      SkipToken();
      ok, event := ProcessEmptyScalar(AtFlowSequenceEntryMappingValue);
    }

    method ParseFlowSequenceEntryMappingValue() returns (ok: bool, event: Event)
      requires Going()
      modifies this`pos, this`state, this`states, this`streamEndProduced, this`failed, this`problem
      ensures Done(ok, event, FlowPairValueStep(tokens, old(Snap())))
    {
      hide ThenNode, EndMarked, Popped, ThenEmpty, Snap;
      event := NoEvent;
      var token := PeekToken();
      if token == None {
        return false, event;
      }
      if token.value.kind == ValueToken {
        token := NextToken();
        if token == None {
          return false, event;
        }
        if token.value.kind != FlowEntryToken && token.value.kind != FlowSequenceEndToken {
          ok, event := NodeThen(AtFlowSequenceEntryMappingEnd, false, false);
          return;
        }
      }
      ok, event := ProcessEmptyScalar(AtFlowSequenceEntryMappingEnd);
    }

    method ParseFlowSequenceEntryMappingEnd() returns (ok: bool, event: Event)
      requires Going()
      modifies this`state, this`failed, this`problem
      ensures Done(ok, event, FlowPairEndStep(tokens, old(Snap())))
    {
      event := NoEvent;
      var token := PeekToken();
      if token == None {
        return false, event;
      }
      state := AtFlowSequenceEntry;
      ok, event := true, MappingEnd;
    }

    method ParseFlowMappingKey(first: bool) returns (ok: bool, event: Event)
      requires Going() && states != []
      requires if first then pos < |tokens| && tokens[pos].kind != StreamEndToken else marks != []
      modifies this`pos, this`state, this`states, this`marks, this`streamEndProduced, this`failed, this`problem
      ensures Done(ok, event, FlowKeyStep(tokens, Entered(old(Snap()), first), first))
    {
      hide FlowEntryStep, EndMarked, Snap;
      Enter(first);
      event := NoEvent;
      var token := PeekToken();
      if token == None {
        return false, event;
      }
      if token.value.kind == FlowMappingEndToken {
        ok, event := EndCollection(MappingEnd);
        return;
      }
      if !first {
        token := TakeFlowEntry("did not find expected ',' or '}'");
        if token == None {
          return false, event;
        }
      }
      ok, event := FlowEntry();
    }

    method FlowEntry() returns (ok: bool, event: Event)
      requires Going() && states != [] && marks != [] && pos < |tokens|
      modifies this`pos, this`state, this`states, this`marks, this`streamEndProduced, this`failed, this`problem
      ensures Done(ok, event, FlowEntryStep(tokens, old(Snap())))
    {
      hide ThenNode, EndMarked, FlowAfterKeyStep;
      var token := PeekToken();
      if token.value.kind == KeyToken {
        SkipToken();
        ok, event := AfterFlowKey();
        return;
      } else if token.value.kind != FlowMappingEndToken {
        ok, event := NodeThen(AtFlowMappingEmptyValue, false, false);
        return;
      }
      ok, event := EndCollection(MappingEnd);
    }

    // After the key indicator of a flow mapping: the key, if there is one.
    method AfterFlowKey() returns (ok: bool, event: Event)
      requires Going()
      modifies this`pos, this`state, this`states, this`streamEndProduced, this`failed, this`problem
      ensures Done(ok, event, FlowAfterKeyStep(tokens, old(Snap())))
    {
      hide ThenNode, EndMarked, Popped, ThenEmpty, Snap;
      event := NoEvent;
      var token := PeekToken();
      if token == None {
        return false, event;
      }
      if token.value.kind != ValueToken && token.value.kind != FlowEntryToken && token.value.kind != FlowMappingEndToken {
        ok, event := NodeThen(AtFlowMappingValue, false, false);
      } else {
        ok, event := ProcessEmptyScalar(AtFlowMappingValue);
      }
    }

    method ParseFlowMappingValue(empty: bool) returns (ok: bool, event: Event)
      requires Going()
      modifies this`pos, this`state, this`states, this`streamEndProduced, this`failed, this`problem
      ensures Done(ok, event, FlowValueStep(tokens, old(Snap()), empty))
    {
      hide ThenNode, EndMarked, Popped, ThenEmpty, Snap;
      event := NoEvent;
      var token := PeekToken();
      if token == None {
        return false, event;
      }
      if empty {
        ok, event := ProcessEmptyScalar(AtFlowMappingKey);
        return;
      }
      if token.value.kind == ValueToken {
        token := NextToken();
        if token == None {
          return false, event;
        }
        if token.value.kind != FlowEntryToken && token.value.kind != FlowMappingEndToken {
          ok, event := NodeThen(AtFlowMappingKey, false, false);
          return;
        }
      }
      ok, event := ProcessEmptyScalar(AtFlowMappingKey);
    }

    // The dispatcher. The two node states that are only ever passed through are
    // not among the ones it meets.
    method StateMachine() returns (ok: bool, event: Event)
      requires Going() && Safe(tokens, Snap())
      modifies this`pos, this`state, this`states, this`marks, this`tagDirectives, this`streamEndProduced, this`failed, this`problem
      ensures Came(ok, event, Snap(), Step(tokens, old(Snap())))
      ensures if ok then !failed && (streamEndProduced ==> state == AtEnd) else failed
    {
      hide BlockSequenceStep, IndentlessStep, BlockKeyStep, BlockValueStep, FlowSequenceStep, FlowPairKeyStep, FlowPairValueStep,
        FlowPairEndStep, FlowKeyStep, FlowValueStep, StreamStartStep, DocumentStartStep, DocumentContentStep, DocumentEndStep, NodeStep;
      match state
      case AtStreamStart => ok, event := ParseStreamStart();
      case AtImplicitDocumentStart => ok, event := ParseDocumentStart(true);
      case AtDocumentStart => ok, event := ParseDocumentStart(false);
      case AtDocumentContent => ok, event := ParseDocumentContent();
      case AtDocumentEnd => ok, event := ParseDocumentEnd();
      case AtBlockNode => ok, event := ParseNode(true, false);
      case AtBlockSequenceFirstEntry => ok, event := ParseBlockSequenceEntry(true);
      case AtBlockSequenceEntry => ok, event := ParseBlockSequenceEntry(false);
      case AtIndentlessSequenceEntry => ok, event := ParseIndentlessSequenceEntry();
      case AtBlockMappingFirstKey => ok, event := ParseBlockMappingKey(true);
      case AtBlockMappingKey => ok, event := ParseBlockMappingKey(false);
      case AtBlockMappingValue => ok, event := ParseBlockMappingValue();
      case AtFlowSequenceFirstEntry => ok, event := ParseFlowSequenceEntry(true);
      case AtFlowSequenceEntry => ok, event := ParseFlowSequenceEntry(false);
      case AtFlowSequenceEntryMappingKey => ok, event := ParseFlowSequenceEntryMappingKey();
      case AtFlowSequenceEntryMappingValue => ok, event := ParseFlowSequenceEntryMappingValue();
      case AtFlowSequenceEntryMappingEnd => ok, event := ParseFlowSequenceEntryMappingEnd();
      case AtFlowMappingFirstKey => ok, event := ParseFlowMappingKey(true);
      case AtFlowMappingKey => ok, event := ParseFlowMappingKey(false);
      case AtFlowMappingValue => ok, event := ParseFlowMappingValue(false);
      case AtFlowMappingEmptyValue => ok, event := ParseFlowMappingValue(true);
    }

    // The next event. After the end of the stream or an error there is none.
    method Parse() returns (ok: bool, event: Event)
      requires Valid()
      modifies this`pos, this`state, this`states, this`marks, this`tagDirectives, this`streamEndProduced, this`failed, this`problem, this`progress
      ensures Valid()
      ensures if old(failed) || old(state) == AtEnd then ok && event == NoEvent && Snap() == old(Snap()) && failed == old(failed)
        else Came(ok, event, Snap(), Step(tokens, old(Snap()))) && failed == !ok && (ok ==> event != NoEvent)
      ensures ok && event != NoEvent ==> progress == Next(old(progress), event) && progress != Bad && Carried(old(pos), event) && Potential() < old(Potential())
      ensures !ok || event == NoEvent ==> progress == old(progress)
      ensures !old(failed) && old(state) == AtEnd ==> progress == Closed
    {
      hide Contents, Good, Next, Step, EventsLeft, Left, Fits, Safe, Rank, Carries;
      if streamEndProduced || failed || state == AtEnd {
        if !failed { GoodMeans(tokens, Snap(), progress); }
        return true, NoEvent;
      }
      ghost var c := Snap();
      GoodMeans(tokens, c, progress);
      NoEventBad(progress);
      GoodIsSafe(tokens, c, progress);
      StepFine(tokens, c, progress);
      LeftMeans(tokens, c);
      ok, event := StateMachine();
      if ok {
        progress := Next(progress, event);
        GoodMeans(tokens, Snap(), progress);
      }
    }
  }

  lemma BeyondNode(tokens: seq<Token>, c: Config, block: bool, indentless: bool)
    requires c.pos <= |tokens|
    ensures c.pos == |tokens| ==> NodeStep(tokens, c, block, indentless) == Fails
  {
  }

  lemma NoEventBad(p: Progress)
    ensures Next(p, NoEvent) == Bad
  {
  }

  lemma LeftMeans(tokens: seq<Token>, c: Config)
    ensures EventsLeft(tokens, c) == Left(tokens, c) + Rank(c.state)
  {
  }

  lemma NoDirectives(tokens: seq<Token>, i: nat, tags: seq<TagDirective>)
    requires i < |tokens| && tokens[i].kind != VersionDirectiveToken && tokens[i].kind != TagDirectiveToken
    ensures DirectivesAt(tokens, i, tags, false) == Directives(WithDefaults(tags), i)
  {
  }

  lemma BeyondProperties(tokens: seq<Token>, i: nat, tags: seq<TagDirective>)
    requires i >= |tokens|
    ensures PropertiesAt(tokens, i, tags) == NoProperties
  {
  }

  // A state on the stack is a document's end or goes on inside a collection.
  lemma TopIsLater(states: seq<PState>)
    requires states != [] && Stacked(states)
    ensures !IsFirst(states[|states| - 1]) && states[|states| - 1] != AtEnd
  {
    var q := states[|states| - 1];
    assert q == AtDocumentEnd || Resumes(q);
  }

  lemma EndFits()
    ensures Fits(AtEnd, [], Next(Open([InStream]), StreamEnd))
    ensures Mark(AtEnd) == AllMarks([]) == 0 && Rank(AtEnd) == AllRanks([]) == 0 && !IsFirst(AtEnd)
  {
  }

  lemma DocumentFits(q: PState)
    requires q == AtBlockNode || q == AtDocumentContent
    ensures Fits(q, [AtDocumentEnd], Next(Open([InStream]), DocumentStart))
    ensures AllMarks([AtDocumentEnd]) + Mark(q) == 0 && AllRanks([AtDocumentEnd]) + Rank(q) == 5 && !IsFirst(q)
  {
    PushedFrames([], AtDocumentEnd);
    assert [] + [AtDocumentEnd] == [AtDocumentEnd];
  }
}
