// The streams that the YAML parser takes are exactly the supported ones of its
// grammar, and their events are those of the derivation.

module YamlLanguage {
  import opened YamlEvents
  import opened YamlSteps
  import opened YamlGrammar
  import opened YamlAccept
  import opened YamlStream
  import opened YamlReject
  import P = YamlParser

  // ---------- runs are unique ----------

  // Of two runs from the same place one goes on with the other.
  lemma {:induction false} RunsPrefix(tokens: seq<Token>, c: Config, a: seq<Event>, d: Config, b: seq<Event>, e: Config)
    requires Runs(tokens, c, a, d) && Runs(tokens, c, b, e) && e.state == AtEnd
    ensures a <= b && Runs(tokens, d, b[|a|..], e)
    decreases |a|
  {
    hide Step;
    if a == [] {
      assert b[0..] == b;
    } else {
      AtEndFails(tokens, c);
      assert b != [];
      RunsPrefix(tokens, Step(tokens, c).next, a[1..], d, b[1..], e);
      assert a == [a[0]] + a[1..] && b == [b[0]] + b[1..];
      assert b[1..][|a| - 1..] == b[|a|..];
    }
  }

  // ---------- the end of a run ----------

  lemma {:induction false} RunGood(tokens: seq<Token>, c: Config, p: Progress, events: seq<Event>, d: Config) returns (q: Progress)
    requires P.Good(tokens, c, p) && Runs(tokens, c, events, d)
    ensures P.Good(tokens, d, q)
    decreases |events|
  {
    hide Step, P.Good;
    if events == [] {
      q := p;
    } else {
      AtEndFails(tokens, c);
      var o := Step(tokens, c);
      P.StepFine(tokens, c, p);
      FineGoes(tokens, c, p, o);
      q := RunGood(tokens, o.next, Next(p, o.event), events[1..], d);
    }
  }

  lemma FineGoes(tokens: seq<Token>, c: Config, p: Progress, o: Outcome)
    requires P.Fine(tokens, c, p, o, P.Rank(c.state)) && o.Gives?
    ensures P.Good(tokens, o.next, Next(p, o.event))
  {
    hide P.Good, Next, P.Carries, P.EventsLeft, P.Left;
  }

  lemma StartGood(tokens: seq<Token>)
    ensures P.Good(tokens, START, Fresh) && Entering(tokens, START) && AllLater(START.states)
  {
  }

  lemma EndGood(tokens: seq<Token>, d: Config, q: Progress)
    requires P.Good(tokens, d, q) && d.state == AtEnd
    ensures d.states == [] && d.pos <= |tokens|
  {
  }

  // The end of the stream is the last token.
  lemma {:induction false} RestEven(docs: seq<Document>)
    ensures RestTokens(docs) != []
    ensures var ts, n := RestTokens(docs), |RestTokens(docs)| - 1; ts == ts[..n] + [Sign(StreamEndToken)] && Even(ts[..n])
    decreases |docs|
  {
    hide *;
    if docs == [] {
      LastTokens();
    } else {
      var d := docs[0];
      RestEven(docs[1..]);
      var rest := RestTokens(docs[1..]);
      var most := rest[..|rest| - 1];
      HeadEven(d);
      NodeEven(d.root);
      EndsEven(d.ends);
      EvenJoin(EndTokens(d.ends), most);
      EvenJoin(Tokens(d.root), EndTokens(d.ends) + most);
      EvenJoin(HeadTokens(d), Tokens(d.root) + (EndTokens(d.ends) + most));
      RestTokensAre(docs);
      Regrouped(HeadTokens(d), Tokens(d.root), EndTokens(d.ends), most, Sign(StreamEndToken));
    }
  }

  lemma LastTokens()
    ensures RestTokens([]) == [Sign(StreamEndToken)] && RestTokens([])[..0] == [] && Even([])
  {
  }

  lemma RestTokensAre(docs: seq<Document>)
    requires docs != []
    ensures RestTokens(docs) == HeadTokens(docs[0]) + (Tokens(docs[0].root) + (EndTokens(docs[0].ends) + RestTokens(docs[1..])))
  {
    hide HeadTokens, Tokens, EndTokens;
  }

  lemma Regrouped<T>(a: seq<T>, b: seq<T>, c: seq<T>, d: seq<T>, e: T)
    ensures var all, front := a + (b + (c + (d + [e]))), a + (b + (c + d));
      all == front + [e] && all != [] && all[..|all| - 1] == front
  {
  }

  lemma StreamEven(docs: seq<Document>)
    ensures var tokens := StreamTokens(docs);
      && |tokens| > 1 && (forall k :: 0 <= k < |tokens| - 1 ==> tokens[k].kind != StreamEndToken)
      && Balance(tokens, 1) == 0 && tokens[0] == Sign(StreamStartToken) && Stand(tokens, 1, RestTokens(docs))
  {
    RestEven(docs);
    var tokens, rest := StreamTokens(docs), RestTokens(docs);
    var n := |rest| - 1;
    assert tokens[1..] == rest;
    forall k | 0 <= k < |tokens| - 1 ensures tokens[k].kind != StreamEndToken {
      if k > 0 { assert tokens[k] == rest[k - 1] == rest[..n][k - 1]; }
    }
    WeighJoin(rest[..n], [Sign(StreamEndToken)]);
    assert [Sign(StreamEndToken)][1..] == [];
  }

  // A run to the end has taken all the tokens.
  lemma AllTaken(docs: seq<Document>, events: seq<Event>, d: Config)
    requires Runs(StreamTokens(docs), START, events, d) && d.state == AtEnd
    ensures d.states == [] && d.pos == |StreamTokens(docs)|
    ensures Finishes(StreamTokens(docs), START)
  {
    hide Runs, P.Good, Deficit, Balance;
    var tokens := StreamTokens(docs);
    StartGood(tokens);
    var q := RunGood(tokens, START, Fresh, events, d);
    EndGood(tokens, d, q);
    RunHolds(tokens, START, events, d);
    StreamEven(docs);
  }

  ghost predicate Ends(tokens: seq<Token>) {
    exists events, d :: Runs(tokens, START, events, d) && d.state == AtEnd
  }

  // The parser comes to the end of a stream of its grammar if and only if the
  // stream is supported.
  lemma StreamTaken(docs: seq<Document>)
    requires DerivedStream(docs, true)
    ensures Ends(StreamTokens(docs)) <==> SupportedStream(docs)
  {
    hide Runs, DerivedStream, SupportedStream, RestTokens, Finishes, Step;
    var tokens := StreamTokens(docs);
    if SupportedStream(docs) {
      StreamRuns(docs);
    }
    if Ends(tokens) {
      var events, d :| Runs(tokens, START, events, d) && d.state == AtEnd;
      AllTaken(docs, events, d);
      FinishesStep(tokens, START);
      FirstStep(docs);
      var c := Config(1, AtImplicitDocumentStart, [], 0, []);
      assert EndTokens(0) + RestTokens(docs) == RestTokens(docs);
      RestWins(tokens, c, docs, 0, true);
    }
  }

  lemma FirstStep(docs: seq<Document>)
    ensures var tokens, c := StreamTokens(docs), Config(1, AtImplicitDocumentStart, [], 0, []);
      Step(tokens, START) == Gives(StreamStart, c) && Between(c, true) && Stand(tokens, 1, RestTokens(docs)) && Balance(tokens, 1) == 0
  {
    hide RestTokens;
    StreamEven(docs);
  }

  // The parser is stuck before the end.
  ghost predicate Stuck(tokens: seq<Token>) {
    exists events, c :: Runs(tokens, START, events, c) && c.state != AtEnd && Step(tokens, c) == Fails
  }

  lemma NeverStuck(docs: seq<Document>)
    requires DerivedStream(docs, true) && SupportedStream(docs)
    ensures !Stuck(StreamTokens(docs))
  {
    hide Runs, Step, DerivedStream, SupportedStream, StreamTokens, StreamEvents;
    var tokens := StreamTokens(docs);
    StreamRuns(docs);
    if Stuck(tokens) {
      var events, c :| Runs(tokens, START, events, c) && c.state != AtEnd && Step(tokens, c) == Fails;
      var end := Config(|tokens|, AtEnd, [], 0, []);
      RunsPrefix(tokens, START, events, c, StreamEvents(docs), end);
      StuckStays(tokens, c, StreamEvents(docs)[|events|..], end);
    }
  }

  lemma StuckStays(tokens: seq<Token>, c: Config, events: seq<Event>, d: Config)
    requires Step(tokens, c) == Fails && Runs(tokens, c, events, d)
    ensures d == c
  {
    hide Step;
  }

  // Of a supported stream the events are those of the derivation, from the
  // first to any.
  lemma EventsAre(docs: seq<Document>, events: seq<Event>, c: Config)
    requires DerivedStream(docs, true) && SupportedStream(docs) && Runs(StreamTokens(docs), START, events, c)
    ensures events <= StreamEvents(docs) && (c.state == AtEnd ==> events == StreamEvents(docs))
  {
    hide Runs, Step, DerivedStream, SupportedStream, StreamTokens, StreamEvents;
    var tokens := StreamTokens(docs);
    var end := Config(|tokens|, AtEnd, [], 0, []);
    StreamRuns(docs);
    RunsPrefix(tokens, START, events, c, StreamEvents(docs), end);
    if c.state == AtEnd {
      RunsPrefix(tokens, START, StreamEvents(docs), end, events, c);
    }
  }

  // ---------- what the grammar has and the parser refuses ----------

  const NO_PROPS := Props(None, None, false)

  const WORD := Leaf(NO_PROPS, Some(Text("v", true)))

  // A collection of one pair with a value and no key.
  function Keyless(s: Shape): Node {
    Collection(s, NO_PROPS, [Pair(s != BlockMapping, Missing, true, WORD)], false)
  }

  // A document of version 1.1 is taken, one of any other version is not, nor one that
  // gives a handle twice.
  lemma VersionsTaken(major: int, minor: int, handle: string)
    ensures var docs := [Document(true, [Version(major, minor)], Missing, 0)];
      DerivedStream(docs, true) && (Ends(StreamTokens(docs)) <==> major == 1 && minor == 1)
    ensures var docs := [Document(true, [Handle(handle, "a"), Handle(handle, "b")], Missing, 0)];
      DerivedStream(docs, true) && !Ends(StreamTokens(docs))
  {
    hide Ends, StreamTokens, TagsOf;
    OneDocument(Document(true, [Version(major, minor)], Missing, 0));
    assert [Version(major, minor)][0] == Version(major, minor);
    assert SupportedDirectives([Version(major, minor)]) <==> major == 1 && minor == 1;
    var ds := [Handle(handle, "a"), Handle(handle, "b")];
    OneDocument(Document(true, ds, Missing, 0));
    assert ds[0].handle == ds[1].handle;
    assert !SupportedDirectives(ds);
  }

  lemma OneDocument(d: Document)
    requires d.explicit && d.root == Missing
    ensures DerivedStream([d], true) && (Ends(StreamTokens([d])) <==> SupportedDirectives(d.directives))
  {
    hide Ends, StreamTokens, TagsOf, SupportedDirectives;
    assert [d][1..] == [] && DerivedStream([], false) && DerivedDocument([d][0], true);
    StreamTaken([d]);
    assert SupportedStream([d]) <==> SupportedDocument([d][0]);
  }

  // A flow sequence of a pair with no key after its indicator, and a block
  // mapping of an entry with no key indicator.
  lemma GrammarRefused(s: Shape)
    requires s == FlowSequence || s == BlockMapping
    ensures var docs := [Document(false, [], Keyless(s), 0)]; DerivedStream(docs, true) && !Ends(StreamTokens(docs))
  {
    hide Ends, StreamTokens;
    var docs, entries := [Document(false, [], Keyless(s), 0)], Keyless(s).entries;
    assert docs[1..] == [] && entries[1..] == [];
    assert Derived(WORD, !IsFlow(s), !IsFlow(s));
    assert DerivedOne(s, entries[0], true);
    assert DerivedAll(s, entries[1..], true);
    assert DerivedAll(s, entries, true);
    assert DerivedDocument(docs[0], true);
    assert DerivedStream(docs[1..], false);
    var tags := TagsOf(docs[0]);
    assert !SupportedOne(tags, s, entries[0], false);
    assert !SupportedAll(tags, s, entries, false);
    assert !Supported(tags, Keyless(s));
    assert !SupportedDocument(docs[0]);
    StreamTaken(docs);
  }
}
