// From tokens to the tree: what Unmarshal reads of a stream of the grammar is
// the tree of its first document.

module YamlLoad {
  import opened YamlEvents
  import opened YamlSteps
  import opened YamlTree
  import A = YamlAccept
  import G = YamlGrammar
  import L = YamlLanguage

  // ---------- the tree of a derivation ----------

  function Tree(tags: seq<TagDirective>, n: G.Node): Node
    decreases n
  {
    match n
    case Missing => ScalarNode("", "", true)
    case Reference(name) => AliasNode(name)
    case Leaf(props, None) => ScalarNode(G.TagText(tags, props), "", G.TagText(tags, props) == "")
    case Leaf(props, Some(Text(value, plain))) =>
      var tag := G.TagText(tags, props);
      ScalarNode(tag, value, tag == "!" || (tag == "" && plain))
    case Collection(s, _, entries, _) =>
      if G.IsMapping(s) then MappingNode(Trees(tags, s, entries)) else SequenceNode(Trees(tags, s, entries))
  }

  function Trees(tags: seq<TagDirective>, s: G.Shape, entries: seq<G.Entry>): seq<Node>
    decreases entries
  {
    if entries == [] then [] else EntryTrees(tags, s, entries[0]) + Trees(tags, s, entries[1..])
  }

  function EntryTrees(tags: seq<TagDirective>, s: G.Shape, e: G.Entry): seq<Node>
    decreases e
  {
    match e
    case Item(n) => [Tree(tags, n)] + if s == G.FlowMapping then [ScalarNode("", "", true)] else []
    case Pair(_, key, _, value) =>
      var both := [Tree(tags, key)] + [Tree(tags, value)];
      if s == G.FlowSequence then [MappingNode(both)] else both
  }

  // The leaf for a text is resolved by it if and only if the text is plain and has
  // no tag, or has a single exclamation mark for one: a quoted number is a string.
  lemma LeafTree(tags: seq<TagDirective>, props: G.Props, t: G.Text)
    requires G.TagIn(tags, props).Some?
    ensures var tag, leaf := G.TagIn(tags, props).value, Tree(tags, G.Leaf(props, Some(t)));
      && leaf.ScalarNode? && leaf.value == t.value && leaf.tag == tag && (leaf.implicit <==> (t.plain && tag == "") || tag == "!")
  {
  }

  lemma QuotedNumber()
    ensures var docs := [G.Document(false, [], G.Leaf(L.NO_PROPS, Some(G.Text("123", false))), 0)];
      FirstTree(docs) == Some(DocumentNode([ScalarNode("", "123", false)]))
  {
  }

  // ---------- its events ----------

  lemma {:induction false} KeptJoin(a: seq<Event>, b: seq<Event>)
    ensures KeptAll(a + b) == KeptAll(a) + KeptAll(b)
  {
  }

  lemma {:induction false} EventsJoin(a: seq<Node>, b: seq<Node>)
    ensures EventsOf(a + b) == EventsOf(a) + EventsOf(b)
    decreases |b|
  {
    hide Events;
    if b == [] {
      assert a + b == a;
    } else {
      var n := |b| - 1;
      assert a + b == (a + b[..n]) + [b[n]] && b == b[..n] + [b[n]];
      OneMore(a + b[..n], b[n]);
      OneMore(b[..n], b[n]);
      EventsJoin(a, b[..n]);
    }
  }

  lemma EventsSingle(n: Node)
    ensures EventsOf([n]) == Events(n)
  {
    hide Events;
    OneMore([], n);
    assert [] + [n] == [n];
  }

  lemma {:induction false} TreeEvents(tags: seq<TagDirective>, n: G.Node)
    ensures Events(Tree(tags, n)) == KeptAll(G.Events(tags, n))
    decreases n
  {
    hide *;
    if n.Collection? {
      TreesEvents(tags, n.shape, n.entries);
      CollectionEvents(tags, n);
    } else {
      LeafEvents(tags, n);
    }
  }

  lemma LeafEvents(tags: seq<TagDirective>, n: G.Node)
    requires !n.Collection?
    ensures Events(Tree(tags, n)) == KeptAll(G.Events(tags, n))
  {
    hide KeptAll;
    KeptSingle(G.Events(tags, n)[0]);
  }

  lemma CollectionEvents(tags: seq<TagDirective>, n: G.Node)
    requires n.Collection? && EventsOf(Trees(tags, n.shape, n.entries)) == KeptAll(G.EntryEvents(tags, n.shape, n.entries))
    ensures Events(Tree(tags, n)) == KeptAll(G.Events(tags, n))
  {
    hide KeptAll, EventsOf, Trees, G.EntryEvents, G.TagText, G.AnchorOf;
    var s := n.shape;
    var start, inner, end := G.StartOf(s, G.AnchorOf(n.props), G.TagText(tags, n.props)), G.EntryEvents(tags, s, n.entries), G.EndOf(s);
    KeptJoin([start], inner + [end]);
    KeptJoin(inner, [end]);
    KeptSingle(start);
    KeptSingle(end);
  }

  lemma KeptSingle(e: Event)
    ensures KeptAll([e]) == [Kept(e)]
  {
    hide Kept;
  }

  lemma {:induction false} TreesEvents(tags: seq<TagDirective>, s: G.Shape, entries: seq<G.Entry>)
    ensures EventsOf(Trees(tags, s, entries)) == KeptAll(G.EntryEvents(tags, s, entries))
    decreases entries
  {
    hide KeptAll, Events, EntryTrees, G.OneEvents;
    if entries == [] {
      NoneKept();
    } else {
      EntryTreesEvents(tags, s, entries[0]);
      TreesEvents(tags, s, entries[1..]);
      EventsJoin(EntryTrees(tags, s, entries[0]), Trees(tags, s, entries[1..]));
      KeptJoin(G.OneEvents(tags, s, entries[0]), G.EntryEvents(tags, s, entries[1..]));
    }
  }

  lemma NoneKept()
    ensures KeptAll([]) == []
  {
  }

  lemma {:induction false} EntryTreesEvents(tags: seq<TagDirective>, s: G.Shape, e: G.Entry)
    ensures EventsOf(EntryTrees(tags, s, e)) == KeptAll(G.OneEvents(tags, s, e))
    decreases e
  {
    hide KeptAll, Events, EventsOf, Tree, G.Events;
    match e
    case Item(n) =>
      TreeEvents(tags, n);
      EventsSingle(Tree(tags, n));
      if s == G.FlowMapping {
        EmptyEvents();
        EventsJoin([Tree(tags, n)], [ScalarNode("", "", true)]);
        KeptJoin(G.Events(tags, n), [EMPTY]);
      } else {
        assert [Tree(tags, n)] + [] == [Tree(tags, n)];
      }
    case Pair(_, key, _, value) =>
      TreeEvents(tags, key);
      TreeEvents(tags, value);
      EventsSingle(Tree(tags, key));
      EventsSingle(Tree(tags, value));
      EventsJoin([Tree(tags, key)], [Tree(tags, value)]);
      KeptJoin(G.Events(tags, key), G.Events(tags, value));
      if s == G.FlowSequence {
        PairEvents([Tree(tags, key)] + [Tree(tags, value)], G.Events(tags, key) + G.Events(tags, value));
      }
  }

  lemma EmptyEvents()
    ensures EventsOf([ScalarNode("", "", true)]) == KeptAll([EMPTY])
  {
    EventsSingle(ScalarNode("", "", true));
  }

  lemma PairEvents(both: seq<Node>, events: seq<Event>)
    requires EventsOf(both) == KeptAll(events)
    ensures EventsOf([MappingNode(both)]) == KeptAll([MappingStart("", "", true, true)] + (events + [MappingEnd]))
  {
    hide KeptAll, EventsOf;
    EventsSingle(MappingNode(both));
    KeptJoin([MappingStart("", "", true, true)], events + [MappingEnd]);
    KeptJoin(events, [MappingEnd]);
    KeptSingle(MappingStart("", "", true, true));
    KeptSingle(MappingEnd);
  }

  // ---------- the first document ----------

  function FirstTree(docs: seq<G.Document>): Option<Node> {
    if docs == [] then None else Some(DocumentNode([Tree(G.TagsOf(docs[0]), docs[0].root)]))
  }

  // The events of a stream begin with those of the tree of the first document.
  lemma StreamBegins(docs: seq<G.Document>)
    requires docs != []
    ensures FirstTree(docs).Some?
    ensures KeptAll(G.StreamEvents(docs)) == [StreamStart] + (Events(FirstTree(docs).value) + KeptAll(G.RestEvents(docs[1..])))
  {
    hide *;
    var d, rest := docs[0], G.RestEvents(docs[1..]);
    var root, end, t := G.Events(G.TagsOf(d), d.root), DocumentEnd(d.ends == 0), Tree(G.TagsOf(d), d.root);
    FirstIs(docs);
    KeptJoin([StreamStart], [DocumentStart] + (root + ([end] + rest)));
    KeptJoin([DocumentStart], root + ([end] + rest));
    KeptJoin(root, [end] + rest);
    KeptJoin([end], rest);
    MarksKept(d.ends == 0);
    TreeEvents(G.TagsOf(d), d.root);
    DocumentEvents(t);
    Regrouped([DocumentStart], Events(t), [DocumentEnd(false)], KeptAll(rest));
  }

  lemma Regrouped(a: seq<Event>, b: seq<Event>, c: seq<Event>, d: seq<Event>)
    ensures a + (b + (c + d)) == (a + b + c) + d
  {
  }

  lemma FirstIs(docs: seq<G.Document>)
    requires docs != []
    ensures var d := docs[0];
      && FirstTree(docs) == Some(DocumentNode([Tree(G.TagsOf(d), d.root)]))
      && G.StreamEvents(docs) == [StreamStart] + ([DocumentStart] + (G.Events(G.TagsOf(d), d.root) + ([DocumentEnd(d.ends == 0)] + G.RestEvents(docs[1..]))))
  {
    hide Tree, G.TagsOf, G.Events;
  }

  lemma MarksKept(implicit: bool)
    ensures KeptAll([StreamStart]) == [StreamStart] && KeptAll([DocumentStart]) == [DocumentStart]
    ensures KeptAll([DocumentEnd(implicit)]) == [DocumentEnd(false)]
  {
    hide KeptAll;
    KeptSingle(StreamStart);
    KeptSingle(DocumentStart);
    KeptSingle(DocumentEnd(implicit));
  }

  lemma DocumentEvents(t: Node)
    ensures Events(DocumentNode([t])) == [DocumentStart] + Events(t) + [DocumentEnd(false)]
  {
    EventsSingle(t);
    assert Events(DocumentNode([t])) == [DocumentStart] + EventsOf([t]) + [DocumentEnd(false)];
  }

  // The first event that is not of the stream.
  lemma FirstEvent(docs: seq<G.Document>, event: Event, taken: seq<Event>, c: Config)
    requires G.DerivedStream(docs, true) && G.SupportedStream(docs) && event != NoEvent && taken == [StreamStart]
    requires Reached(G.StreamTokens(docs), event, taken, c)
    ensures event == if docs == [] then StreamEnd else DocumentStart
  {
    hide G.StreamTokens, G.DerivedStream, G.SupportedStream;
    L.EventsAre(docs, taken + [event], c);
    assert (taken + [event])[1] == event;
  }

  // A document read from the start of the stream is the first one.
  lemma ReadFirst(docs: seq<G.Document>, event: Event, taken: seq<Event>, c: Config, node: Node)
    requires G.DerivedStream(docs, true) && G.SupportedStream(docs) && docs != [] && event != NoEvent
    requires Reached(G.StreamTokens(docs), event, taken, c) && Took([StreamStart], taken, node)
    ensures Some(node) == FirstTree(docs)
  {
    hide *;
    var all := G.StreamEvents(docs);
    ReachedRuns(G.StreamTokens(docs), event, taken, c);
    L.EventsAre(docs, taken + [event], c);
    var rest := all[|taken|..];
    assert all == taken + rest;
    KeptJoin(taken, rest);
    TookIs(taken, node);
    StreamBegins(docs);
    var first := FirstTree(docs).value;
    var x, y := KeptAll(rest), KeptAll(G.RestEvents(docs[1..]));
    SameAfter(StreamStart, Events(node), x, Events(first) + y);
    Unambiguous(node, first, x, y);
  }

  lemma ReachedRuns(tokens: seq<Token>, event: Event, taken: seq<Event>, c: Config)
    requires event != NoEvent && Reached(tokens, event, taken, c)
    ensures A.Runs(tokens, START, taken + [event], c)
  {
    hide A.Runs;
  }

  lemma TookIs(taken: seq<Event>, node: Node)
    requires Took([StreamStart], taken, node)
    ensures KeptAll(taken) == [StreamStart] + Events(node)
  {
    hide KeptAll, Events;
    MarksKept(true);
  }

  lemma SameAfter(e: Event, a: seq<Event>, x: seq<Event>, b: seq<Event>)
    requires [e] + a + x == [e] + b
    ensures a + x == b
  {
    assert [e] + a + x == [e] + (a + x);
    assert ([e] + (a + x))[1..] == a + x && ([e] + b)[1..] == b;
  }

  // Of a supported stream the first document is read, as it is derived.
  method Unmarshal(tokens: seq<Token>) returns (ok: bool, node: Option<Node>)
    ensures !ok ==> L.Stuck(tokens)
    ensures forall docs ::
      G.DerivedStream(docs, true) && G.SupportedStream(docs) && tokens == G.StreamTokens(docs) ==> ok && node == FirstTree(docs)
  {
    hide *;
    var p := new Builder(tokens);
    node := None;
    ok := p.Start();
    if ok {
      ghost var event, taken, c := p.event, p.taken, p.parser.Snap();
      p.ReadyMeans();
      ParseableHas(event);
      p.ReadyReached();
      ok, node := p.ParseNode();
      forall docs | G.DerivedStream(docs, true) && G.SupportedStream(docs) && tokens == G.StreamTokens(docs) && ok
        ensures node == FirstTree(docs)
      {
        FirstEvent(docs, event, taken, c);
        if docs == [] {
          NoTree(docs);
        } else {
          p.ReadyReached();
          ReadFirst(docs, p.event, p.taken, p.parser.Snap(), node.value);
        }
      }
    }
    forall docs | G.DerivedStream(docs, true) && G.SupportedStream(docs) && tokens == G.StreamTokens(docs)
      ensures !L.Stuck(tokens)
    {
      L.NeverStuck(docs);
    }
  }

  lemma ParseableHas(e: Event)
    ensures Parseable(e) ==> e != NoEvent
  {
  }

  lemma NoTree(docs: seq<G.Document>)
    requires docs == []
    ensures FirstTree(docs) == None
  {
  }
}
