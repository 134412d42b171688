// Documents and whole streams: what the YAML parser can take is parsed into
// its events.

module YamlStream {
  import opened YamlEvents
  import opened YamlSteps
  import opened YamlGrammar
  import opened YamlAccept

  // ---------- directives ----------

  // What is still fine after the directives so far.
  predicate SupportedAfter(tags: seq<TagDirective>, version: bool, ds: seq<Directive>) {
    && SupportedDirectives(ds)
    && (version ==> forall i :: 0 <= i < |ds| ==> !ds[i].Version?)
    && (forall i :: 0 <= i < |ds| && ds[i].Handle? ==> !Defined(tags, ds[i].handle))
  }

  lemma {:induction false} DirectivesRead(tokens: seq<Token>, i: nat, ds: seq<Directive>, rest: seq<Token>, tags: seq<TagDirective>, version: bool)
    requires Stand(tokens, i, DirectiveTokens(ds) + rest) && rest != []
    requires rest[0].kind != VersionDirectiveToken && rest[0].kind != TagDirectiveToken
    ensures DirectivesAt(tokens, i, tags, version) ==
      if SupportedAfter(tags, version, ds) then Directives(WithDefaults(tags + Handles(ds)), i + |DirectiveTokens(ds)|) else BadDirectives
    decreases |ds|
  {
    hide WithDefaults, Stand, SupportedAfter;
    if ds == [] {
      assert DirectiveTokens(ds) + rest == rest == [rest[0]] + rest[1..];
      StandOne(tokens, i, rest[0], rest[1..]);
      assert tags + Handles(ds) == tags;
      NoDirectivesLeft(tags, version);
    } else {
      var t, more := DirectiveToken(ds[0]), DirectiveTokens(ds[1..]) + rest;
      assert DirectiveTokens(ds) + rest == [t] + more;
      StandOne(tokens, i, t, more);
      OneDirective(tags, version, ds);
      var tags' := if ds[0].Handle? then tags + [TagDirective(ds[0].handle, ds[0].prefix)] else tags;
      DirectivesRead(tokens, i + 1, ds[1..], rest, tags', version || ds[0].Version?);
      assert tags + Handles(ds) == tags' + Handles(ds[1..]);
    }
  }

  lemma NoDirectivesLeft(tags: seq<TagDirective>, version: bool)
    ensures SupportedAfter(tags, version, [])
  {
  }

  // The first directive, and then the others.
  lemma OneDirective(tags: seq<TagDirective>, version: bool, ds: seq<Directive>)
    requires ds != []
    ensures var d := ds[0];
      SupportedAfter(tags, version, ds) <==>
        (match d
         case Version(major, minor) => !version && major == 1 && minor == 1 && SupportedAfter(tags, true, ds[1..])
         case Handle(handle, prefix) => !Defined(tags, handle) && SupportedAfter(tags + [TagDirective(handle, prefix)], version, ds[1..]))
  {
    var d, rest := ds[0], ds[1..];
    assert forall i :: 0 <= i < |rest| ==> rest[i] == ds[i + 1];
    assert forall i :: 1 <= i < |ds| ==> ds[i] == rest[i - 1];
    if d.Handle? {
      forall h ensures Defined(tags + [TagDirective(d.handle, d.prefix)], h) <==> Defined(tags, h) || h == d.handle {
        DefinedMore(tags, TagDirective(d.handle, d.prefix), h);
      }
    }
  }

  lemma DefinedMore(tags: seq<TagDirective>, t: TagDirective, h: string)
    ensures Defined(tags + [t], h) <==> Defined(tags, h) || h == t.handle
  {
    assert forall x :: x in tags + [t] <==> x in tags || x == t;
    assert t in tags + [t];
  }

  // ---------- documents ----------

  predicate Heads(k: Kind) {
    k == VersionDirectiveToken || k == TagDirectiveToken || k == DocumentStartToken || k == StreamEndToken
  }

  // What comes after a document starts with a sign of its own.
  lemma RestHeads(docs: seq<Document>)
    requires DerivedStream(docs, false)
    ensures RestTokens(docs) != [] && Heads(RestTokens(docs)[0].kind)
  {
    hide Derived, Tokens;
    if docs != [] {
      var d := docs[0];
      assert HeadTokens(d) != [] && Heads(HeadTokens(d)[0].kind);
    }
  }

  // Between two documents, or before the first.
  predicate Between(c: Config, first: bool) {
    c.state == (if first then AtImplicitDocumentStart else AtDocumentStart) && c.states == [] && c.tags == []
  }

  lemma {:induction false} EndsPassed(tokens: seq<Token>, i: nat, n: nat, rest: seq<Token>)
    requires Stand(tokens, i, EndTokens(n) + rest) && rest != [] && rest[0].kind != DocumentEndToken
    ensures PastDocumentEnds(tokens, i) == i + n && Stand(tokens, i + n, rest) && |EndTokens(n)| == n
    decreases n
  {
    hide Stand;
    if n == 0 {
      assert EndTokens(n) + rest == rest == [rest[0]] + rest[1..];
      StandOne(tokens, i, rest[0], rest[1..]);
    } else {
      var t, more := Sign(DocumentEndToken), EndTokens(n - 1) + rest;
      assert EndTokens(n) + rest == [t] + more;
      StandOne(tokens, i, t, more);
      EndsPassed(tokens, i + 1, n - 1, rest);
    }
  }

  // The document after its head.
  function DocumentEntered(c: Config, d: Document, extra: nat): Config {
    c.(pos := c.pos + extra + |HeadTokens(d)|, state := if d.explicit then AtDocumentContent else AtBlockNode,
       states := [AtDocumentEnd], tags := TagsOf(d))
  }

  lemma HeadRuns(tokens: seq<Token>, c: Config, d: Document, rest: seq<Token>, extra: nat, first: bool)
    requires Between(c, first) && (first ==> extra == 0) && (!d.explicit ==> first && d.directives == [])
    requires Stand(tokens, c.pos, EndTokens(extra) + (HeadTokens(d) + rest)) && (!d.explicit ==> rest != [] && Begins(rest[0].kind, true, false))
    ensures Step(tokens, c) == if SupportedDirectives(d.directives) then Gives(DocumentStart, DocumentEntered(c, d, extra)) else Fails
    ensures Stand(tokens, c.pos + extra + |HeadTokens(d)|, rest)
  {
    hide *;
    var e := c.(pos := c.pos + extra);
    HeadStarts(d, rest);
    var head := HeadTokens(d) + rest;
    EndsPassed(tokens, c.pos, extra, head);
    assert head == [head[0]] + head[1..];
    StandOne(tokens, e.pos, head[0], head[1..]);
    StandSplit(tokens, e.pos, HeadTokens(d), rest);
    StartSteps(tokens, c, extra, first);
    BetweenHas(c, first);
    EnteredOn(c, e, d, extra);
    if d.explicit {
      ExplicitRuns(tokens, e, d, rest);
      HeadIsExplicit(tokens, e.pos, d, rest);
    } else {
      ImplicitSteps(tokens, e, d, rest);
    }
  }

  // The first token of a document.
  lemma HeadStarts(d: Document, rest: seq<Token>)
    requires !d.explicit ==> rest != [] && Begins(rest[0].kind, true, false)
    ensures var head := HeadTokens(d) + rest; head != [] && head[0].kind != DocumentEndToken && head[0].kind != StreamEndToken
    ensures !d.explicit ==> HeadTokens(d) == [] && HeadTokens(d) + rest == rest
  {
    if d.explicit && d.directives != [] {
      assert HeadTokens(d)[0] == DirectiveToken(d.directives[0]);
    }
  }

  lemma StartSteps(tokens: seq<Token>, c: Config, extra: nat, first: bool)
    requires Between(c, first) && (first ==> extra == 0) && PastDocumentEnds(tokens, c.pos) == c.pos + extra && c.pos + extra < |tokens|
    ensures var d := c.(pos := c.pos + extra);
      Step(tokens, c) ==
        if first && !ExplicitStart(tokens, d.pos) then Gives(DocumentStart, d.(state := AtBlockNode, states := [AtDocumentEnd], tags := WithDefaults([])))
        else if Is(tokens, d.pos, StreamEndToken) then Gives(StreamEnd, d.(pos := d.pos + 1, state := AtEnd))
        else ExplicitStep(tokens, d)
  {
    hide ExplicitStep, PastDocumentEnds, WithDefaults;
    assert [] + [AtDocumentEnd] == [AtDocumentEnd];
  }

  lemma ImplicitSteps(tokens: seq<Token>, e: Config, d: Document, rest: seq<Token>)
    requires !d.explicit && d.directives == [] && rest != [] && Begins(rest[0].kind, true, false) && Stand(tokens, e.pos, rest)
    ensures !ExplicitStart(tokens, e.pos) && !Is(tokens, e.pos, StreamEndToken) && HeadTokens(d) == [] && TagsOf(d) == WithDefaults([]) && SupportedDirectives(d.directives)
    ensures DocumentEntered(e, d, 0) == e.(state := AtBlockNode, states := [AtDocumentEnd], tags := WithDefaults([]))
  {
    hide Stand, WithDefaults, TagsOf;
    TagsAgree(d);
    assert rest == [rest[0]] + rest[1..];
    StandOne(tokens, e.pos, rest[0], rest[1..]);
  }

  lemma HeadIsExplicit(tokens: seq<Token>, i: nat, d: Document, rest: seq<Token>)
    requires d.explicit && i < |tokens| && HeadTokens(d) + rest != [] && tokens[i] == (HeadTokens(d) + rest)[0]
    ensures ExplicitStart(tokens, i) && !Is(tokens, i, StreamEndToken)
  {
    if d.directives != [] { assert HeadTokens(d)[0] == DirectiveToken(d.directives[0]); }
  }

  lemma EnteredOn(c: Config, e: Config, d: Document, extra: nat)
    requires e == c.(pos := c.pos + extra)
    ensures DocumentEntered(e, d, 0) == DocumentEntered(c, d, extra)
  {
    hide HeadTokens, TagsOf;
  }

  lemma ExplicitRuns(tokens: seq<Token>, e: Config, d: Document, rest: seq<Token>)
    requires d.explicit && e.states == [] && e.tags == [] && Stand(tokens, e.pos, HeadTokens(d) + rest)
    ensures ExplicitStep(tokens, e) == if SupportedDirectives(d.directives) then Gives(DocumentStart, DocumentEntered(e, d, 0)) else Fails
  {
    hide Stand, DirectivesAt, WithDefaults, DirectiveTokens, Handles, SupportedDirectives, TagsOf;
    TagsAgree(d);
    var ds, start := d.directives, [Sign(DocumentStartToken)];
    assert HeadTokens(d) + rest == DirectiveTokens(ds) + (start + rest);
    DirectivesRead(tokens, e.pos, ds, start + rest, [], false);
    StandSplit(tokens, e.pos, DirectiveTokens(ds), start + rest);
    StandOne(tokens, e.pos + |DirectiveTokens(ds)|, start[0], rest);
    FromNothing(ds);
    assert [] + [AtDocumentEnd] == [AtDocumentEnd];
  }

  lemma FromNothing(ds: seq<Directive>)
    ensures SupportedAfter([], false, ds) <==> SupportedDirectives(ds)
    ensures [] + Handles(ds) == Handles(ds)
  {
  }

  // After the root of a document.
  predicate AfterDocument(tokens: seq<Token>, i: nat) {
    i < |tokens| && (Heads(tokens[i].kind) || tokens[i].kind == DocumentEndToken)
  }

  lemma RootRuns(tokens: seq<Token>, c: Config, d: Document)
    requires c.state == (if d.explicit then AtDocumentContent else AtBlockNode) && c.states == [AtDocumentEnd]
    requires (if d.explicit then Optional(d.root, true, false) else Derived(d.root, true, false)) && Supported(c.tags, d.root)
    requires Stand(tokens, c.pos, Tokens(d.root)) && AfterDocument(tokens, c.pos + |Tokens(d.root)|)
    ensures Runs(tokens, c, Events(c.tags, d.root), c.(pos := c.pos + |Tokens(d.root)|, state := AtDocumentEnd, states := []))
  {
    hide *;
    var end := c.(pos := c.pos + |Tokens(d.root)|, state := AtDocumentEnd, states := []);
    RootSteps(tokens, c, d);
    if d.root.Missing? {
      RunsNone(tokens, end);
      RunsCons(tokens, c, Gives(EMPTY, end), [], end);
    } else {
      NodeRuns(tokens, c, d.root, true, false);
      GivesRuns(tokens, c, Events(c.tags, d.root), end);
    }
  }

  lemma RootSteps(tokens: seq<Token>, c: Config, d: Document)
    requires c.state == (if d.explicit then AtDocumentContent else AtBlockNode) && c.states == [AtDocumentEnd]
    requires if d.explicit then Optional(d.root, true, false) else Derived(d.root, true, false)
    requires Stand(tokens, c.pos, Tokens(d.root)) && AfterDocument(tokens, c.pos + |Tokens(d.root)|)
    ensures !d.root.Missing? ==>
      && Derived(d.root, true, false) && Step(tokens, c) == NodeStep(tokens, c, true, false)
      && Follows(tokens, c.pos + |Tokens(d.root)|, false)
      && Followed(c, |Tokens(d.root)|) == c.(pos := c.pos + |Tokens(d.root)|, state := AtDocumentEnd, states := [])
    ensures d.root.Missing? ==>
      && Tokens(d.root) == [] && Events(c.tags, d.root) == [EMPTY] + []
      && Step(tokens, c) == Gives(EMPTY, c.(state := AtDocumentEnd, states := []))
  {
    hide Derived, NodeStep, Tokens, Stand, Events;
    assert c.states[..0] == [];
    if !d.explicit { NodeBegins(d.root, true, false); }
    if d.root.Missing? {
      NoTokens(d.root);
      MissingSlot(tokens, c, d.root, AtDocumentEnd, true, false);
    } else {
      SlotBegins(tokens, c.pos, d.root, true, false);
    }
  }

  // The end of a document with or without an end indicator.
  lemma DocumentEndRuns(tokens: seq<Token>, c: Config, ends: nat, rest: seq<Token>)
    requires c.state == AtDocumentEnd && Stand(tokens, c.pos, EndTokens(ends) + rest) && rest != [] && rest[0].kind != DocumentEndToken
    ensures var k := if ends > 0 then 1 else 0; var d := c.(pos := c.pos + k, state := AtDocumentStart, tags := []);
      Step(tokens, c) == Gives(DocumentEnd(ends == 0), d) && Stand(tokens, d.pos, EndTokens(ends - k) + rest)
  {
    hide Stand;
    if ends > 0 {
      assert EndTokens(ends) + rest == [Sign(DocumentEndToken)] + (EndTokens(ends - 1) + rest);
      StandOne(tokens, c.pos, Sign(DocumentEndToken), EndTokens(ends - 1) + rest);
    } else {
      assert EndTokens(ends) + rest == rest == [rest[0]] + rest[1..];
      StandOne(tokens, c.pos, rest[0], rest[1..]);
    }
  }

  // The rest of a stream, after some more end indicators.
  lemma {:induction false} RestRuns(tokens: seq<Token>, c: Config, docs: seq<Document>, extra: nat, first: bool)
    requires Between(c, first) && (first ==> extra == 0) && DerivedStream(docs, first) && SupportedStream(docs)
    requires Stand(tokens, c.pos, EndTokens(extra) + RestTokens(docs))
    ensures Runs(tokens, c, RestEvents(docs), c.(pos := c.pos + extra + |RestTokens(docs)|, state := AtEnd))
    decreases |docs|
  {
    hide *;
    var end := c.(pos := c.pos + extra + |RestTokens(docs)|, state := AtEnd);
    if docs == [] {
      LastSteps(tokens, c, extra, first);
      RunsNone(tokens, end);
      RunsCons(tokens, c, Gives(StreamEnd, end), [], end);
    } else {
      var d, docs' := docs[0], docs[1..];
      RestIs(docs, first);
      RestHeads(docs');
      HeadsNoEnd(RestTokens(docs')[0].kind);
      var after := EndTokens(d.ends) + RestTokens(docs');
      if !d.explicit { NodeBegins(d.root, true, false); }
      var c1 := DocumentEntered(c, d, extra);
      EnteredHas(c, d, extra);
      BetweenHas(c, first);
      HeadRuns(tokens, c, d, Tokens(d.root) + after, extra, first);
      StandSplit(tokens, c1.pos, Tokens(d.root), after);
      var c2 := c1.(pos := c1.pos + |Tokens(d.root)|, state := AtDocumentEnd, states := []);
      RootFollowed(tokens, c2.pos, d.ends, RestTokens(docs'));
      RootRuns(tokens, c1, d);
      var k := if d.ends > 0 then 1 else 0;
      var c3 := c2.(pos := c2.pos + k, state := AtDocumentStart, tags := []);
      DocumentEndRuns(tokens, c2, d.ends, RestTokens(docs'));
      BetweenHas(c3, false);
      RestRuns(tokens, c3, docs', d.ends - k, false);
      RunsCons(tokens, c2, Gives(DocumentEnd(d.ends == 0), c3), RestEvents(docs'), end);
      RunsJoin(tokens, c1, Events(c1.tags, d.root), c2, [DocumentEnd(d.ends == 0)] + RestEvents(docs'), end);
      RunsCons(tokens, c, Gives(DocumentStart, c1), Events(c1.tags, d.root) + ([DocumentEnd(d.ends == 0)] + RestEvents(docs')), end);
    }
  }

  lemma HeadsNoEnd(k: Kind)
    requires Heads(k)
    ensures k != DocumentEndToken && !Begins(k, true, false)
  {
  }

  lemma LastSteps(tokens: seq<Token>, c: Config, extra: nat, first: bool)
    requires Between(c, first) && (first ==> extra == 0) && Stand(tokens, c.pos, EndTokens(extra) + RestTokens([]))
    ensures RestTokens([]) == [Sign(StreamEndToken)] && RestEvents([]) == [StreamEnd] + []
    ensures Step(tokens, c) == Gives(StreamEnd, c.(pos := c.pos + extra + 1, state := AtEnd))
  {
    hide Stand, Step, PastDocumentEnds, ExplicitStep, WithDefaults;
    EndsPassed(tokens, c.pos, extra, RestTokens([]));
    assert RestTokens([]) == [Sign(StreamEndToken)] + [];
    StandOne(tokens, c.pos + extra, Sign(StreamEndToken), []);
    StartSteps(tokens, c, extra, first);
  }

  lemma RestIs(docs: seq<Document>, first: bool)
    requires docs != [] && DerivedStream(docs, first)
    ensures var d, docs' := docs[0], docs[1..];
      && RestTokens(docs) == HeadTokens(d) + (Tokens(d.root) + (EndTokens(d.ends) + RestTokens(docs')))
      && RestEvents(docs) == [DocumentStart] + (Events(TagsOf(d), d.root) + ([DocumentEnd(d.ends == 0)] + RestEvents(docs')))
      && (if d.explicit then Optional(d.root, true, false) else first && d.directives == [] && Derived(d.root, true, false))
      && DerivedStream(docs', false) && |EndTokens(d.ends)| == d.ends
      && (SupportedStream(docs) <==> SupportedDirectives(d.directives) && Supported(TagsOf(d), d.root) && SupportedStream(docs'))
  {
    hide Tokens, Events, Derived, Optional, Supported, HeadTokens, TagsOf, SupportedDirectives;
    assert forall k :: 0 <= k < |docs[1..]| ==> docs[1..][k] == docs[k + 1];
    assert forall k :: 1 <= k < |docs| ==> docs[k] == docs[1..][k - 1];
    EndTokensCount(docs[0].ends);
  }

  lemma {:induction false} EndTokensCount(n: nat)
    ensures |EndTokens(n)| == n
  {
    if n > 0 { EndTokensCount(n - 1); }
  }

  // The token after a root.
  lemma RootFollowed(tokens: seq<Token>, i: nat, ends: nat, rest: seq<Token>)
    requires Stand(tokens, i, EndTokens(ends) + rest) && rest != [] && Heads(rest[0].kind)
    ensures AfterDocument(tokens, i)
  {
    hide Stand;
    if ends > 0 {
      assert EndTokens(ends) + rest == [Sign(DocumentEndToken)] + (EndTokens(ends - 1) + rest);
      StandOne(tokens, i, Sign(DocumentEndToken), EndTokens(ends - 1) + rest);
    } else {
      assert EndTokens(ends) + rest == rest == [rest[0]] + rest[1..];
      StandOne(tokens, i, rest[0], rest[1..]);
    }
  }

  lemma EnteredHas(c: Config, d: Document, extra: nat)
    ensures var e := DocumentEntered(c, d, extra);
      && e.pos == c.pos + extra + |HeadTokens(d)| && e.state == (if d.explicit then AtDocumentContent else AtBlockNode)
      && e.states == [AtDocumentEnd] && e.tags == TagsOf(d) && e.marks == c.marks
  {
  }

  lemma BetweenHas(c: Config, first: bool)
    ensures Between(c, first) ==> c.states == [] && c.tags == []
    ensures c.state == AtDocumentStart && c.states == [] && c.tags == [] ==> Between(c, false)
  {
  }

  // The parser takes every stream that can be taken, and its events are those
  // of the derivation.
  lemma StreamRuns(docs: seq<Document>)
    requires DerivedStream(docs, true) && SupportedStream(docs)
    ensures var tokens := StreamTokens(docs); Runs(tokens, START, StreamEvents(docs), Config(|tokens|, AtEnd, [], 0, []))
  {
    hide RestTokens, RestEvents, Runs, DerivedStream, SupportedStream;
    var tokens, c := StreamTokens(docs), Config(1, AtImplicitDocumentStart, [], 0, []);
    assert tokens[0..0 + |tokens|] == tokens;
    StandOne(tokens, 0, Sign(StreamStartToken), RestTokens(docs));
    assert EndTokens(0) + RestTokens(docs) == RestTokens(docs);
    RestRuns(tokens, c, docs, 0, true);
    assert Step(tokens, START) == Gives(StreamStart, c);
    RunsCons(tokens, START, Gives(StreamStart, c), RestEvents(docs), Config(|tokens|, AtEnd, [], 0, []));
  }
}
