// Building the node tree out of the events, by recursion on the event at hand.

module YamlTree {
  import opened YamlEvents
  import opened YamlSteps
  import P = YamlParser
  import G = YamlGrammar
  import A = YamlAccept
  import L = YamlLanguage

  // Anchors are kept in a map beside the tree; it is not part of this model.
  datatype Node =
    | DocumentNode(children: seq<Node>)
    | MappingNode(children: seq<Node>)
    | SequenceNode(children: seq<Node>)
    | ScalarNode(tag: string, value: string, implicit: bool)
    | AliasNode(value: string)

  function NoNode(): Node {
    DocumentNode([])
  }

  // What the tree keeps of an event.
  function Kept(e: Event): Event {
    match e
    case Scalar(_, tag, value, implicit, _) => Scalar("", tag, value, implicit, false)
    case SequenceStart(_, _, _, _) => SequenceStart("", "", false, false)
    case MappingStart(_, _, _, _) => MappingStart("", "", false, false)
    case DocumentEnd(_) => DocumentEnd(false)
    case _ => e
  }

  function KeptAll(events: seq<Event>): (r: seq<Event>)
    ensures |r| == |events| && forall k :: 0 <= k < |r| ==> r[k] == Kept(events[k])
  {
    if events == [] then [] else [Kept(events[0])] + KeptAll(events[1..])
  }

  // The events a tree stands for.
  function Events(n: Node): seq<Event> {
    match n
    case DocumentNode(children) => [DocumentStart] + EventsOf(children) + [DocumentEnd(false)]
    case MappingNode(children) => [MappingStart("", "", false, false)] + EventsOf(children) + [MappingEnd]
    case SequenceNode(children) => [SequenceStart("", "", false, false)] + EventsOf(children) + [SequenceEnd]
    case ScalarNode(tag, value, implicit) => [Scalar("", tag, value, implicit, false)]
    case AliasNode(value) => [Alias(value)]
  }

  function EventsOf(nodes: seq<Node>): seq<Event> {
    if nodes == [] then [] else EventsOf(nodes[..|nodes| - 1]) + Events(nodes[|nodes| - 1])
  }

  lemma OneMore(nodes: seq<Node>, n: Node)
    ensures EventsOf(nodes + [n]) == EventsOf(nodes) + Events(n)
  {
    assert (nodes + [n])[..|nodes|] == nodes;
  }

  lemma KeptOne(x: seq<Event>, e: Event)
    ensures KeptAll(x + [e]) == KeptAll(x) + [Kept(e)]
  {
  }

  // The texts of events, in order.
  function Texts(events: seq<Event>): seq<string> {
    if events == [] then [] else Texts(events[..|events| - 1]) + P.Given(events[|events| - 1])
  }

  lemma TextsMore(events: seq<Event>, e: Event)
    ensures Texts(events + [e]) == Texts(events) + P.Given(e)
  {
    assert (events + [e])[..|events|] == events;
  }

  lemma TextsStep(tokens: seq<Token>, taken: seq<Event>, e: Event, i: nat, next: Event, j: nat)
    requires i <= |tokens| && j <= |tokens| && Texts(taken) + P.Given(e) == P.Contents(tokens, i) && P.Carries(tokens, i, j, next)
    ensures Texts(if e == NoEvent then taken else taken + [e]) + P.Given(next) == P.Contents(tokens, j)
  {
    hide P.Contents;
    TextsMore(taken, e);
  }

  // The top of what is open.
  predicate On(p: Progress, f: Frame) {
    p.Open? && p.stack != [] && p.stack[|p.stack| - 1] == f
  }

  // A node event is the only kind that can come before a root and after a key;
  // in a sequence and before a key the end can come, too.
  lemma Comes(p: Progress, e: Event)
    requires Next(p, e) != Bad
    ensures On(p, InDocument) || On(p, AtValue) ==> IsNode(e)
    ensures On(p, InSequence) ==> IsNode(e) || e.SequenceEnd?
    ensures On(p, AtKey) ==> IsNode(e) || e.MappingEnd?
    ensures On(p, AfterRoot) ==> e.DocumentEnd?
    ensures p == Open([InStream]) ==> e.DocumentStart? || e.StreamEnd?
    ensures Next(p, e) == Closed ==> e.StreamEnd?
  {
  }

  function Children(n: Node): seq<Node> {
    match n
    case DocumentNode(children) => children
    case MappingNode(children) => children
    case SequenceNode(children) => children
    case _ => []
  }

  function Size(n: Node): nat {
    match n
    case DocumentNode(children) => 1 + SizeOf(children)
    case MappingNode(children) => 1 + SizeOf(children)
    case SequenceNode(children) => 1 + SizeOf(children)
    case _ => 1
  }

  function SizeOf(nodes: seq<Node>): nat {
    if nodes == [] then 0 else Size(nodes[0]) + SizeOf(nodes[1..]) + 1
  }

  lemma {:induction false} FrontFirst(nodes: seq<Node>)
    requires nodes != []
    ensures EventsOf(nodes) == Events(nodes[0]) + EventsOf(nodes[1..])
  {
    var n := |nodes| - 1;
    if n > 0 {
      FrontFirst(nodes[..n]);
      assert nodes[..n][1..] == nodes[1..][..n - 1];
      assert EventsOf(nodes[1..]) == EventsOf(nodes[1..][..n - 1]) + Events(nodes[n]);
    } else {
      assert nodes[..0] == [] && nodes[1..] == [];
    }
  }

  // No tree's events are the beginning of another's: the events determine the
  // tree, whatever comes after them.
  lemma {:induction false} Unambiguous(a: Node, b: Node, x: seq<Event>, y: seq<Event>)
    requires Events(a) + x == Events(b) + y
    ensures a == b && x == y
    decreases Size(a), 0
  {
    var ea, eb := Events(a), Events(b);
    assert (ea + x)[0] == ea[0] && (eb + y)[0] == eb[0];
    if a.ScalarNode? || a.AliasNode? {
      assert (ea + x)[1..] == x && (eb + y)[1..] == y;
    } else {
      var endA, endB := ea[|ea| - 1], eb[|eb| - 1];
      assert (ea + x)[1..] == EventsOf(Children(a)) + ([endA] + x);
      assert (eb + y)[1..] == EventsOf(Children(b)) + ([endB] + y);
      UnambiguousAll(Children(a), Children(b), endA, endB, x, y);
    }
  }

  predicate IsEnd(e: Event) {
    e.SequenceEnd? || e.MappingEnd? || e.DocumentEnd?
  }

  lemma FirstEvent(n: Node)
    ensures Events(n) != [] && !IsEnd(Events(n)[0])
  {
  }

  lemma {:induction false} UnambiguousAll(a: seq<Node>, b: seq<Node>, endA: Event, endB: Event, x: seq<Event>, y: seq<Event>)
    requires EventsOf(a) + ([endA] + x) == EventsOf(b) + ([endB] + y) && IsEnd(endA) && IsEnd(endB)
    ensures a == b && x == y
    decreases SizeOf(a), 1
  {
    hide Events;
    var restA, restB := [endA] + x, [endB] + y;
    if a != [] { FrontFirst(a); FirstEvent(a[0]); assert (EventsOf(a) + restA)[0] == Events(a[0])[0]; }
    if b != [] { FrontFirst(b); FirstEvent(b[0]); assert (EventsOf(b) + restB)[0] == Events(b[0])[0]; }
    assert a == [] ==> EventsOf(a) + restA == restA;
    assert b == [] ==> EventsOf(b) + restB == restB;
    if a == [] {
      assert restA[1..] == x && restB[1..] == y;
    } else {
      assert Events(a[0]) + (EventsOf(a[1..]) + restA) == EventsOf(a) + restA;
      assert Events(b[0]) + (EventsOf(b[1..]) + restB) == EventsOf(b) + restB;
      Unambiguous(a[0], b[0], EventsOf(a[1..]) + restA, EventsOf(b[1..]) + restB);
      UnambiguousAll(a[1..], b[1..], endA, endB, x, y);
      assert a == [a[0]] + a[1..] && b == [b[0]] + b[1..];
    }
  }

  // ---------- trees and the grammar ----------

  function Run(p: Progress, events: seq<Event>): Progress
    decreases |events|
  {
    if events == [] then p else Run(Next(p, events[0]), events[1..])
  }

  lemma {:induction false} RunJoin(p: Progress, x: seq<Event>, y: seq<Event>)
    ensures Run(p, x + y) == Run(Run(p, x), y)
    decreases |x|
  {
    if x == [] {
      assert x + y == y;
    } else {
      assert (x + y)[1..] == x[1..] + y;
      RunJoin(Next(p, x[0]), x[1..], y);
    }
  }

  // Every mapping inside has an even number of children; documents do not nest.
  predicate Proper(n: Node)
    decreases Size(n), 0
  {
    match n
    case DocumentNode(children) => false
    case MappingNode(children) => |children| % 2 == 0 && ProperAll(children)
    case SequenceNode(children) => ProperAll(children)
    case _ => true
  }

  predicate ProperAll(nodes: seq<Node>)
    decreases SizeOf(nodes), 1
  {
    nodes == [] || (Proper(nodes[0]) && ProperAll(nodes[1..]))
  }

  lemma RunOne(p: Progress, e: Event)
    ensures Run(p, [e]) == Next(p, e)
  {
    assert Run(Next(p, e), []) == Next(p, e);
  }

  // What a node does to the frame on top.
  lemma {:induction false} ProperRuns(n: Node, below: seq<Frame>, f: Frame)
    requires Proper(n) && Takes(f)
    ensures Run(Open(below + [f]), Events(n)) == Open(below + [Fed(f)])
    decreases Size(n), 0
  {
    var p := Open(below + [f]);
    FeedsTop(below, f);
    match n
    case ScalarNode(tag, value, implicit) => RunOne(p, Events(n)[0]);
    case AliasNode(value) => RunOne(p, Events(n)[0]);
    case SequenceNode(children) => ProperInside(p, below + [Fed(f)], SequenceStart("", "", false, false), children, InSequence, SequenceEnd);
    case MappingNode(children) => ProperInside(p, below + [Fed(f)], MappingStart("", "", false, false), children, AtKey, MappingEnd);
  }

  lemma {:induction false} ProperInside(p: Progress, below: seq<Frame>, start: Event, children: seq<Node>, f: Frame, end: Event)
    requires Next(p, start) == Open(below + [f]) && ProperAll(children)
    requires (f == InSequence && end.SequenceEnd?) || (f == AtKey && end.MappingEnd? && |children| % 2 == 0)
    ensures Run(p, [start] + EventsOf(children) + [end]) == Open(below)
    decreases SizeOf(children), 2
  {
    hide Events, EventsOf, Proper, ProperAll, Run;
    RunJoin(p, [start] + EventsOf(children), [end]);
    RunJoin(p, [start], EventsOf(children));
    RunOne(p, start);
    ProperRunsAll(children, below, f);
    RunOne(Open(below + [f]), end);
    assert (below + [f])[..|below|] == below;
  }

  function FedBy(f: Frame, n: nat): Frame
    decreases n
  {
    if n == 0 then f else FedBy(Fed(f), n - 1)
  }

  lemma FedTwice(f: Frame, n: nat)
    requires f == InSequence || ((f == AtKey || f == AtValue) && n % 2 == 0)
    ensures FedBy(f, n) == f
  {
    if n > 1 { FedTwice(f, n - 2); }
  }

  lemma {:induction false} ProperRunsAll(nodes: seq<Node>, below: seq<Frame>, f: Frame)
    requires ProperAll(nodes) && (f == InSequence || f == AtKey || f == AtValue)
    ensures Run(Open(below + [f]), EventsOf(nodes)) == Open(below + [FedBy(f, |nodes|)])
    ensures f == InSequence || |nodes| % 2 == 0 ==> FedBy(f, |nodes|) == f
    decreases SizeOf(nodes), 1
  {
    hide Events;
    if nodes != [] {
      FrontFirst(nodes);
      ProperRuns(nodes[0], below, f);
      RunJoin(Open(below + [f]), Events(nodes[0]), EventsOf(nodes[1..]));
      ProperRunsAll(nodes[1..], below, Fed(f));
    }
    if f == InSequence || |nodes| % 2 == 0 { FedTwice(f, |nodes|); }
  }

  // A document of one proper root, read where a document can begin.
  lemma DocumentRuns(root: Node)
    requires Proper(root)
    ensures Run(Open([InStream]), Events(DocumentNode([root]))) == Open([InStream])
  {
    hide Events, Proper;
    var p := Open([InStream]);
    OneMore([], root);
    assert [] + [root] == [root] && EventsOf([]) + Events(root) == Events(root);
    RunJoin(p, [DocumentStart] + Events(root), [DocumentEnd(false)]);
    RunJoin(p, [DocumentStart], Events(root));
    RunOne(p, DocumentStart);
    assert [InStream] + [InDocument] == [InStream, InDocument] && [InStream] + [AfterRoot] == [InStream, AfterRoot];
    ProperRuns(root, [InStream], InDocument);
    RunOne(Open([InStream, AfterRoot]), DocumentEnd(false));
    assert [InStream, AfterRoot][..1] == [InStream];
    DocumentEventsAre(root);
  }

  lemma DocumentEventsAre(root: Node)
    ensures Events(DocumentNode([root])) == [DocumentStart] + EventsOf([root]) + [DocumentEnd(false)]
  {
  }

  lemma {:induction false} ProperMore(nodes: seq<Node>, n: Node)
    requires ProperAll(nodes) && Proper(n)
    ensures ProperAll(nodes + [n])
    decreases |nodes|
  {
    hide Proper;
    if nodes == [] {
      assert [n][1..] == [] && nodes + [n] == [n];
    } else {
      assert (nodes + [n])[1..] == nodes[1..] + [n];
      ProperMore(nodes[1..], n);
    }
  }

  lemma NoneProper()
    ensures ProperAll([])
  {
  }

  // A document as the parser gives it: one root, and no document inside.
  predicate OneRoot(n: Node) {
    n.DocumentNode? && |n.children| == 1 && Proper(n.children[0])
  }

  lemma ProperCollection(children: seq<Node>)
    requires ProperAll(children)
    ensures Proper(SequenceNode(children)) && (|children| % 2 == 0 ==> Proper(MappingNode(children)))
  {
  }

  // Whether parse goes on at the event with nothing wrong.
  predicate Parseable(e: Event) {
    IsNode(e) || e.DocumentStart? || e.StreamEnd?
  }

  // From before to after with the events taken growing by those of the node.
  predicate Took(taken: seq<Event>, taken': seq<Event>, n: Node) {
    KeptAll(taken') == KeptAll(taken) + Events(n)
  }

  // The nodes read so far inside a collection whose start was taken.
  predicate TookStart(taken: seq<Event>, start: Event, taken': seq<Event>, nodes: seq<Node>) {
    KeptAll(taken') == KeptAll(taken) + [Kept(start)] + EventsOf(nodes)
  }

  lemma TookNone(taken: seq<Event>, start: Event)
    ensures TookStart(taken, start, taken + [start], [])
  {
    KeptOne(taken, start);
  }

  lemma TookOne(taken: seq<Event>, start: Event, taken': seq<Event>, nodes: seq<Node>, taken'': seq<Event>, n: Node)
    requires TookStart(taken, start, taken', nodes) && Took(taken', taken'', n)
    ensures TookStart(taken, start, taken'', nodes + [n])
  {
    hide Events, KeptAll, Kept;
    OneMore(nodes, n);
  }

  lemma TookAll(taken: seq<Event>, start: Event, taken': seq<Event>, nodes: seq<Node>, end: Event, n: Node)
    requires TookStart(taken, start, taken', nodes)
    requires match n
      case DocumentNode(c) => c == nodes && start.DocumentStart? && end.DocumentEnd?
      case MappingNode(c) => c == nodes && start.MappingStart? && end.MappingEnd?
      case SequenceNode(c) => c == nodes && start.SequenceStart? && end.SequenceEnd?
      case _ => false
    ensures Took(taken, taken' + [end], n)
  {
    KeptOne(taken', end);
    hide KeptAll, EventsOf;
  }

  lemma TookLeaf(taken: seq<Event>, e: Event, n: Node)
    requires match n
      case ScalarNode(t, v, i) => e.Scalar? && e.tag == t && e.value == v && e.implicit == i
      case AliasNode(v) => e.Alias? && e.anchor == v
      case _ => false
    ensures Took(taken, taken + [e], n)
  {
    KeptOne(taken, e);
    hide KeptAll;
  }

  predicate Fed1(p: Progress, p': Progress) {
    p.Open? && p' == Feed(p.stack)
  }

  lemma LeafFeeds(p: Progress, e: Event)
    requires Next(p, e) != Bad && (e.Scalar? || e.Alias?)
    ensures Fed1(p, Next(p, e))
  {
  }

  // Inside a collection: its frame is on top of what was open, fed one node.
  predicate InsideOf(p: Progress, f: Frame, p': Progress) {
    p.Open? && Feed(p.stack).Open? && p' == Open(Feed(p.stack).stack + [f])
  }

  lemma StartEnters(p: Progress, e: Event)
    requires Next(p, e) != Bad && (e.SequenceStart? || e.MappingStart?)
    ensures InsideOf(p, if e.SequenceStart? then InSequence else AtKey, Next(p, e))
  {
  }

  lemma NodeInside(p: Progress, f: Frame, p': Progress, p'': Progress)
    requires InsideOf(p, f, p') && (f == InSequence || f == AtKey || f == AtValue) && Fed1(p', p'')
    ensures InsideOf(p, Fed(f), p'')
  {
    FeedsTop(Feed(p.stack).stack, f);
  }

  lemma FeedsTop(below: seq<Frame>, f: Frame)
    requires Takes(f)
    ensures Feed(below + [f]) == Open(below + [Fed(f)])
  {
    assert (below + [f])[..|below|] == below;
  }

  lemma EndLeaves(p: Progress, f: Frame, p': Progress, e: Event)
    requires InsideOf(p, f, p') && Next(p', e) != Bad
    requires (f == InSequence && e.SequenceEnd?) || (f == AtKey && e.MappingEnd?)
    ensures Fed1(p, Next(p', e))
  {
    assert p'.stack[..|p'.stack| - 1] == Feed(p.stack).stack;
  }

  lemma InsideOn(p: Progress, f: Frame, p': Progress)
    requires InsideOf(p, f, p')
    ensures On(p', f)
  {
  }

  lemma RootFeeds(p: Progress, p': Progress)
    requires p == Open([InStream, InDocument]) && Fed1(p, p')
    ensures p' == Open([InStream, AfterRoot]) && On(p', AfterRoot)
  {
  }

  lemma DocumentSteps(p: Progress, e: Event)
    requires Next(p, e) != Bad
    ensures e.DocumentStart? ==> p == Open([InStream]) && Next(p, e) == Open([InStream, InDocument]) && On(Next(p, e), InDocument)
    ensures e.DocumentEnd? && p == Open([InStream, AfterRoot]) ==> Next(p, e) == Open([InStream])
  {
  }

  // The parser has come to c with the events taken and the one at hand.
  ghost predicate Reached(tokens: seq<Token>, event: Event, taken: seq<Event>, c: Config) {
    if event == NoEvent then taken == [] && c == START else A.Runs(tokens, START, taken + [event], c)
  }

  function Taken(event: Event, taken: seq<Event>): seq<Event> {
    if event == NoEvent then taken else taken + [event]
  }

  lemma ReachedNext(tokens: seq<Token>, event: Event, taken: seq<Event>, c: Config, next: Event, d: Config)
    requires Reached(tokens, event, taken, c) && Step(tokens, c) == Gives(next, d) && next != NoEvent
    ensures Reached(tokens, next, Taken(event, taken), d)
  {
    hide Step, A.Runs;
    A.RunsNone(tokens, d);
    A.RunsCons(tokens, c, Gives(next, d), [], d);
    if event == NoEvent {
      assert [] + [next] == [next] + [];
    } else {
      A.RunsJoin(tokens, START, taken + [event], c, [next] + [], d);
      assert taken + [event] + ([next] + []) == taken + [event] + [next];
    }
  }

  lemma ReachedStuck(tokens: seq<Token>, event: Event, taken: seq<Event>, c: Config)
    requires Reached(tokens, event, taken, c) && Step(tokens, c) == Fails && c.state != AtEnd
    ensures L.Stuck(tokens)
  {
    hide Step, A.Runs;
    if event == NoEvent { A.RunsNone(tokens, START); }
  }

  class Builder {
    const parser: P.Parser
    var event: Event
    // What was open before the event at hand, and the events taken.
    ghost var before: Progress
    ghost var taken: seq<Event>

    ghost predicate Ready()
      reads this, parser
    {
      && parser.Valid() && !parser.failed && parser.progress != Bad
      && (if event == NoEvent then parser.progress == Fresh else parser.progress == Next(before, event))
      && parser.pos <= |parser.tokens| && Texts(taken) + P.Given(event) == P.Contents(parser.tokens, parser.pos)
      && Reached(parser.tokens, event, taken, parser.Snap())
    }

    lemma ReadyMeans()
      requires Ready()
      ensures event != NoEvent ==> Next(before, event) != Bad && parser.progress == Next(before, event)
      ensures parser.Potential() >= 0
    {
    }

    lemma ReadyReached()
      requires Ready()
      ensures Reached(parser.tokens, event, taken, parser.Snap())
    {
      hide Reached, Texts;
    }

    constructor (tokens: seq<Token>)
      ensures Ready() && event == NoEvent && taken == [] && fresh(parser) && parser.tokens == tokens
    {
      parser := new P.Parser(tokens);
      event, before, taken := NoEvent, Fresh, [];
    }

    // Takes the event at hand and asks for the next; fails with the parser, or
    // past the end of the stream.
    method Skip() returns (ok: bool)
      requires Ready()
      modifies this, parser
      ensures ok ==> Ready() && event != NoEvent && parser.Potential() < old(parser.Potential())
      ensures ok ==> before == old(if event == NoEvent then Fresh else Next(before, event))
      ensures ok ==> taken == old(Taken(event, taken))
      ensures !ok ==> old(event) == StreamEnd || L.Stuck(parser.tokens)
    {
      hide Next, Texts, P.Contents, P.Good, P.Carries, P.Given, Reached, Step, L.Stuck, P.EventsLeft;
      ghost var i, t, e, c := parser.pos, taken, event, parser.Snap();
      if event != NoEvent {
        Comes(before, event);
        if event == StreamEnd {
          return false;
        }
        taken := taken + [event];
      }
      before := parser.progress;
      ok, event := parser.Parse();
      if ok {
        TextsStep(parser.tokens, t, e, i, event, parser.pos);
        ReachedNext(parser.tokens, e, t, c, event, parser.Snap());
      } else {
        ReachedStuck(parser.tokens, e, t, c);
      }
    }

    // The stream start, as newParser reads it.
    method Start() returns (ok: bool)
      requires Ready() && event == NoEvent && taken == []
      modifies this, parser
      ensures ok ==> Ready() && Parseable(event) && before == Open([InStream]) && taken == [StreamStart]
      ensures !ok ==> L.Stuck(parser.tokens)
    {
      hide Ready, Texts, L.Stuck;
      ok := Skip();
      if !ok {
        return;
      }
      ReadyMeans();
      assert event == StreamStart;
      ok := Skip();
      if ok {
        ReadyMeans();
        Comes(before, event);
      }
    }

    // At the end of the stream every text of the tokens taken is in the events.
    lemma NothingLost()
      requires Ready() && event == StreamEnd
      ensures parser.pos <= |parser.tokens| && Texts(taken) == P.Contents(parser.tokens, parser.pos)
    {
      hide Texts, P.Contents;
      assert Texts(taken) + [] == Texts(taken);
    }

    // A scalar, an alias or a whole collection, or a whole document; nothing at
    // the end of the stream.
    method ParseNode() returns (ok: bool, node: Option<Node>)
      requires Ready() && Parseable(event)
      modifies this, parser
      ensures ok && old(event).StreamEnd? ==> node == None && taken == old(taken) && event == old(event)
      ensures ok && !old(event).StreamEnd? ==> Ready() && event != NoEvent && parser.Potential() < old(parser.Potential())
      ensures ok && !old(event).StreamEnd? ==> node.Some? && Took(old(taken), taken, node.value)
      ensures ok && IsNode(old(event)) ==> Fed1(old(before), before) && Proper(node.value)
      ensures ok && old(event).DocumentStart? ==> before == old(before) == Open([InStream]) && OneRoot(node.value)
      ensures !ok ==> L.Stuck(parser.tokens)
      decreases parser.Potential(), 1
    {
      hide L.Stuck, Texts, Ready, Next, Took, Fed1;
      ReadyMeans();
      node := None;
      match event {
        case Scalar(anchor, tag, value, implicit, quoted) =>
          TookLeaf(taken, event, ScalarNode(tag, value, implicit));
          LeafFeeds(before, event);
          node := Some(ScalarNode(tag, value, implicit));
          ok := Skip();
        case Alias(anchor) =>
          TookLeaf(taken, event, AliasNode(anchor));
          LeafFeeds(before, event);
          node := Some(AliasNode(anchor));
          ok := Skip();
        case MappingStart(_, _, _, _) =>
          var n;
          ok, n := Mapping();
          node := Some(n);
        case SequenceStart(_, _, _, _) =>
          var n;
          ok, n := Sequence();
          node := Some(n);
        case DocumentStart =>
          var n;
          ok, n := Document();
          node := Some(n);
        case _ =>
          ok := true;
      }
    }

    // Nothing but the end of the document can follow its root.
    method Document() returns (ok: bool, node: Node)
      requires Ready() && event.DocumentStart?
      modifies this, parser
      ensures ok ==> Ready() && event != NoEvent && parser.Potential() < old(parser.Potential())
      ensures ok ==> Took(old(taken), taken, node) && before == old(before) == Open([InStream]) && OneRoot(node)
      ensures !ok ==> L.Stuck(parser.tokens)
      decreases parser.Potential(), 0
    {
      hide L.Stuck, Texts, Ready, Next, Took, Fed1, TookStart, On;
      ReadyMeans();
      DocumentSteps(before, event);
      node := DocumentNode([]);
      ghost var start := event;
      TookNone(taken, start);
      ok := Skip();
      if !ok {
        return;
      }
      ReadyMeans();
      Comes(before, event);
      ghost var taken1 := taken;
      var root;
      ok, root := ParseNode();
      if !ok {
        return;
      }
      TookOne(old(taken), start, taken1, [], taken, root.value);
      RootFeeds(Open([InStream, InDocument]), before);
      ReadyMeans();
      Comes(before, event);
      DocumentSteps(before, event);
      node := DocumentNode([root.value]);
      TookAll(old(taken), start, taken, [] + [root.value], event, node);
      ok := Skip();
    }

    // One more node inside a collection.
    method Child(ghost p: Progress, ghost f: Frame, ghost taken0: seq<Event>, ghost start: Event, ghost nodes: seq<Node>) returns (ok: bool, node: Node)
      requires Ready() && event != NoEvent && InsideOf(p, f, before) && TookStart(taken0, start, taken, nodes)
      requires f == AtValue || (f == AtKey && event != MappingEnd) || (f == InSequence && event != SequenceEnd)
      modifies this, parser
      ensures ok ==> Ready() && event != NoEvent && parser.Potential() < old(parser.Potential())
      ensures ok ==> InsideOf(p, Fed(f), before) && TookStart(taken0, start, taken, nodes + [node]) && Proper(node)
      ensures !ok ==> L.Stuck(parser.tokens)
      decreases parser.Potential(), 2
    {
      hide L.Stuck, Texts, Ready, Next, Took, Fed1, TookStart, InsideOf, On, Proper;
      ReadyMeans();
      InsideOn(p, f, before);
      Comes(before, event);
      ghost var before1, taken1 := before, taken;
      var child;
      ok, child := ParseNode();
      node := NoNode();
      if ok {
        node := child.value;
        NodeInside(p, f, before1, before);
        TookOne(taken0, start, taken1, nodes, taken, node);
      }
    }

    method Sequence() returns (ok: bool, node: Node)
      requires Ready() && event.SequenceStart?
      modifies this, parser
      ensures ok ==> Ready() && event != NoEvent && parser.Potential() < old(parser.Potential())
      ensures ok ==> Took(old(taken), taken, node) && Fed1(old(before), before) && Proper(node)
      ensures !ok ==> L.Stuck(parser.tokens)
      decreases parser.Potential(), 0
    {
      hide L.Stuck, Texts, Ready, Next, Took, Fed1, TookStart, InsideOf, On, Proper, ProperAll;
      ReadyMeans();
      StartEnters(before, event);
      node := SequenceNode([]);
      ghost var start := event;
      TookNone(taken, start);
      ok := Skip();
      if !ok {
        return;
      }
      var children := [];
      assert ProperAll([]) by { NoneProper(); }
      while event != SequenceEnd
        invariant Ready() && event != NoEvent && parser.Potential() < old(parser.Potential())
        invariant InsideOf(old(before), InSequence, before)
        invariant TookStart(old(taken), start, taken, children) && ProperAll(children)
        decreases parser.Potential()
      {
        ReadyMeans();
        var child;
        ok, child := Child(old(before), InSequence, old(taken), start, children);
        if !ok {
          return;
        }
        ProperMore(children, child);
        children := children + [child];
      }
      ProperCollection(children);
      ReadyMeans();
      EndLeaves(old(before), InSequence, before, event);
      node := SequenceNode(children);
      TookAll(old(taken), start, taken, children, event, node);
      ok := Skip();
    }

    // A mapping has as many values as keys.
    method Mapping() returns (ok: bool, node: Node)
      requires Ready() && event.MappingStart?
      modifies this, parser
      ensures ok ==> Ready() && event != NoEvent && parser.Potential() < old(parser.Potential())
      ensures ok ==> Took(old(taken), taken, node) && Fed1(old(before), before) && Proper(node)
      ensures !ok ==> L.Stuck(parser.tokens)
      decreases parser.Potential(), 0
    {
      hide L.Stuck, Texts, Ready, Next, Took, Fed1, TookStart, InsideOf, On, Proper, ProperAll;
      ReadyMeans();
      StartEnters(before, event);
      node := MappingNode([]);
      ghost var start := event;
      TookNone(taken, start);
      ok := Skip();
      if !ok {
        return;
      }
      var children := [];
      assert ProperAll([]) by { NoneProper(); }
      while event != MappingEnd
        invariant Ready() && event != NoEvent && parser.Potential() < old(parser.Potential())
        invariant InsideOf(old(before), AtKey, before) && |children| % 2 == 0
        invariant TookStart(old(taken), start, taken, children) && ProperAll(children)
        decreases parser.Potential()
      {
        ReadyMeans();
        var key, value;
        ok, key := Child(old(before), AtKey, old(taken), start, children);
        if !ok {
          return;
        }
        ReadyMeans();
        ProperMore(children, key);
        ok, value := Child(old(before), AtValue, old(taken), start, children + [key]);
        if !ok {
          return;
        }
        ProperMore(children + [key], value);
        children := children + [key] + [value];
      }
      ProperCollection(children);
      ReadyMeans();
      EndLeaves(old(before), AtKey, before, event);
      node := MappingNode(children);
      TookAll(old(taken), start, taken, children, event, node);
      ok := Skip();
    }
  }
}
