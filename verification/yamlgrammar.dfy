// The grammar that the YAML parser is written for, as derivations: the tokens
// and the events of each, and which of them the parser can take.

module YamlGrammar {
  import opened YamlEvents
  import opened YamlSteps

  datatype Tag = Tag(handle: string, suffix: string)

  datatype Props = Props(anchor: Option<string>, tag: Option<Tag>, tagFirst: bool)

  datatype Text = Text(value: string, plain: bool)

  datatype Shape = BlockSequence | Indentless | BlockMapping | FlowSequence | FlowMapping

  // A node, or nothing where the grammar has an optional one.
  datatype Node =
    | Missing
    | Reference(name: string)
    | Leaf(props: Props, text: Option<Text>)
    | Collection(shape: Shape, props: Props, entries: seq<Entry>, trailing: bool)

  datatype Entry = Item(node: Node) | Pair(hasKey: bool, key: Node, hasValue: bool, value: Node)

  // ---------- derivations ----------

  predicate IsFlow(s: Shape) {
    s == FlowSequence || s == FlowMapping
  }

  // block_node, block_node_or_indentless_sequence and flow_node.
  predicate Derived(n: Node, block: bool, indentless: bool)
    decreases n, 0
  {
    match n
    case Missing => false
    case Reference(_) => true
    case Leaf(props, text) => text.Some? || props.anchor.Some? || props.tag.Some?
    case Collection(shape, _, entries, trailing) =>
      && (shape == Indentless ==> indentless && entries != [])
      && (shape == BlockSequence || shape == BlockMapping ==> block)
      && (trailing ==> IsFlow(shape) && entries != [])
      && DerivedAll(shape, entries, true)
  }

  predicate Optional(n: Node, block: bool, indentless: bool)
    decreases n, 1
  {
    n.Missing? || Derived(n, block, indentless)
  }

  predicate Complete(e: Entry) {
    e.Item? || e.hasValue
  }

  // Where an entry of a block mapping has no value, the next one has a key, or
  // the two would be one.
  predicate DerivedAll(shape: Shape, entries: seq<Entry>, keyless: bool)
    decreases entries
  {
    entries == [] || (DerivedOne(shape, entries[0], keyless) && DerivedAll(shape, entries[1..], Complete(entries[0])))
  }

  predicate DerivedOne(shape: Shape, e: Entry, keyless: bool)
    decreases e
  {
    match e
    case Item(n) =>
      if IsFlow(shape) then Derived(n, false, false) else shape != BlockMapping && Optional(n, true, false)
    case Pair(hasKey, key, hasValue, value) =>
      && (IsFlow(shape) || shape == BlockMapping)
      && (hasKey || (shape == BlockMapping && hasValue && keyless))
      && (if hasKey then Optional(key, !IsFlow(shape), !IsFlow(shape)) else key.Missing?)
      && (if hasValue then Optional(value, !IsFlow(shape), !IsFlow(shape)) else value.Missing?)
  }

  // ---------- tokens ----------

  function Sign(k: Kind): Token {
    Token(k, "", "", "", false, 0, 0)
  }

  function PropTokens(p: Props): seq<Token> {
    var a := if p.anchor.Some? then [Sign(AnchorToken).(value := p.anchor.value)] else [];
    var t := if p.tag.Some? then [Sign(TagToken).(value := p.tag.value.handle, suffix := p.tag.value.suffix)] else [];
    if p.tagFirst then t + a else a + t
  }

  function Opening(s: Shape): seq<Token> {
    match s
    case BlockSequence => [Sign(BlockSequenceStartToken)]
    case Indentless => []
    case BlockMapping => [Sign(BlockMappingStartToken)]
    case FlowSequence => [Sign(FlowSequenceStartToken)]
    case FlowMapping => [Sign(FlowMappingStartToken)]
  }

  function Closing(s: Shape): seq<Token> {
    match s
    case Indentless => []
    case FlowSequence => [Sign(FlowSequenceEndToken)]
    case FlowMapping => [Sign(FlowMappingEndToken)]
    case _ => [Sign(BlockEndToken)]
  }

  function TextToken(t: Text): Token {
    Sign(ScalarToken).(value := t.value, plain := t.plain)
  }

  function Tokens(n: Node): seq<Token>
    decreases n
  {
    match n
    case Missing => []
    case Reference(name) => [Sign(AliasToken).(value := name)]
    case Leaf(props, text) => PropTokens(props) + if text.Some? then [TextToken(text.value)] else []
    case Collection(shape, props, entries, trailing) =>
      PropTokens(props) + (Opening(shape) + (EntryTokens(shape, entries, trailing, true) + Closing(shape)))
  }

  // In flow collections the entries are separated, and the last may be followed
  // by a separator, too.
  function EntryTokens(s: Shape, entries: seq<Entry>, trailing: bool, first: bool): seq<Token>
    decreases entries
  {
    var separator := if IsFlow(s) && !first then [Sign(FlowEntryToken)] else [];
    if entries == [] then (if trailing then separator else [])
    else separator + (OneTokens(s, entries[0]) + EntryTokens(s, entries[1..], trailing, false))
  }

  function OneTokens(s: Shape, e: Entry): seq<Token>
    decreases e
  {
    match e
    case Item(n) => if IsFlow(s) then Tokens(n) else [Sign(BlockEntryToken)] + Tokens(n)
    case Pair(hasKey, key, hasValue, value) =>
      (if hasKey then [Sign(KeyToken)] + Tokens(key) else []) + (if hasValue then [Sign(ValueToken)] + Tokens(value) else [])
  }

  // ---------- events ----------

  function AnchorOf(p: Props): string {
    if p.anchor.Some? then p.anchor.value else ""
  }

  // The prefix of the first directive with the handle, and the suffix.
  function Expanded(tags: seq<TagDirective>, handle: string, suffix: string): Option<string> {
    if tags == [] then None
    else if tags[0].handle == handle then Some(tags[0].prefix + suffix)
    else Expanded(tags[1..], handle, suffix)
  }

  // A tag without a handle stands as it is written. There is no empty tag.
  function Meant(tags: seq<TagDirective>, t: Tag): Option<string> {
    if t.handle == "" then Some(t.suffix)
    else if Expanded(tags, t.handle, t.suffix) == Some("") then None
    else Expanded(tags, t.handle, t.suffix)
  }

  function TagIn(tags: seq<TagDirective>, p: Props): Option<string> {
    if p.tag.Some? then Meant(tags, p.tag.value) else Some("")
  }

  // A handle that directive k is the first to have expands to its prefix, and one
  // that none has to nothing.
  lemma {:induction false} TagMeans(tags: seq<TagDirective>, t: Tag, k: nat)
    requires t.handle != "" && k <= |tags| && (forall j :: 0 <= j < k ==> tags[j].handle != t.handle)
    ensures k < |tags| && tags[k].handle == t.handle ==>
      var tag := tags[k].prefix + t.suffix; Meant(tags, t) == if tag == "" then None else Some(tag)
    ensures k == |tags| ==> Meant(tags, t) == None
  {
    if 0 < k {
      assert forall j :: 0 <= j < k - 1 ==> tags[1..][j] == tags[j + 1];
      TagMeans(tags[1..], t, k - 1);
    }
  }

  // The parser expands tags the same way.
  lemma {:induction false} TagAgrees(tags: seq<TagDirective>, t: Tag)
    ensures TagOf(tags, t.handle, t.suffix) == Meant(tags, t)
  {
    if tags != [] { TagAgrees(tags[1..], t); }
  }

  function TagText(tags: seq<TagDirective>, p: Props): string {
    if TagIn(tags, p).Some? then TagIn(tags, p).value else ""
  }

  predicate IsMapping(s: Shape) {
    s == BlockMapping || s == FlowMapping
  }

  function StartOf(s: Shape, anchor: string, tag: string): Event {
    if IsMapping(s) then MappingStart(anchor, tag, tag == "", IsFlow(s)) else SequenceStart(anchor, tag, tag == "", IsFlow(s))
  }

  function EndOf(s: Shape): Event {
    if IsMapping(s) then MappingEnd else SequenceEnd
  }

  function LeafEvent(tags: seq<TagDirective>, p: Props, text: Option<Text>): Event {
    var anchor, tag := AnchorOf(p), TagText(tags, p);
    match text
    case None => Scalar(anchor, tag, "", tag == "", false)
    case Some(Text(value, plain)) => Scalar(anchor, tag, value, tag == "!" || (tag == "" && plain), tag == "" && !plain)
  }

  // How the tag of a leaf is found when it is decoded: from the text if that is
  // plain and has no tag, or is tagged with a single exclamation mark; it is a
  // string if the text is quoted and has no tag.
  lemma LeafImplicit(tags: seq<TagDirective>, p: Props, t: Text)
    requires TagIn(tags, p).Some?
    ensures var e, tag := LeafEvent(tags, p, Some(t)), TagIn(tags, p).value;
      && e.value == t.value && e.tag == tag
      && (e.implicit <==> (t.plain && tag == "") || tag == "!")
      && (e.quotedImplicit <==> !t.plain && tag == "")
      && e == ScalarOf(TextToken(t), AnchorOf(p), tag)
  {
  }

  function Events(tags: seq<TagDirective>, n: Node): (r: seq<Event>)
    ensures r != []
    decreases n
  {
    match n
    case Missing => [Scalar("", "", "", true, false)]
    case Reference(name) => [Alias(name)]
    case Leaf(props, text) => [LeafEvent(tags, props, text)]
    case Collection(shape, props, entries, trailing) =>
      [StartOf(shape, AnchorOf(props), TagText(tags, props))] + (EntryEvents(tags, shape, entries) + [EndOf(shape)])
  }

  function EntryEvents(tags: seq<TagDirective>, s: Shape, entries: seq<Entry>): seq<Event>
    decreases entries
  {
    if entries == [] then [] else OneEvents(tags, s, entries[0]) + EntryEvents(tags, s, entries[1..])
  }

  // An entry of a flow mapping that is only a key has an empty value; a pair in
  // a flow sequence is a mapping of its own.
  function OneEvents(tags: seq<TagDirective>, s: Shape, e: Entry): (r: seq<Event>)
    ensures r != []
    decreases e
  {
    match e
    case Item(n) => if s == FlowMapping then Events(tags, n) + [Scalar("", "", "", true, false)] else Events(tags, n)
    case Pair(_, key, _, value) =>
      var both := Events(tags, key) + Events(tags, value);
      if s == FlowSequence then [MappingStart("", "", true, true)] + (both + [MappingEnd]) else both
  }

  // ---------- what the parser can take ----------

  // Tags need a known handle; without content there must be an anchor or a tag.
  predicate Supported(tags: seq<TagDirective>, n: Node)
    decreases n
  {
    match n
    case Missing => true
    case Reference(_) => true
    case Leaf(props, text) =>
      TagIn(tags, props).Some? && (text.Some? || AnchorOf(props) != "" || TagText(tags, props) != "")
    case Collection(shape, props, entries, trailing) =>
      TagIn(tags, props).Some? && SupportedAll(tags, shape, entries, trailing)
  }

  predicate SupportedAll(tags: seq<TagDirective>, s: Shape, entries: seq<Entry>, trailing: bool)
    decreases entries
  {
    entries == [] ||
    (SupportedOne(tags, s, entries[0], |entries| == 1 && trailing) && SupportedAll(tags, s, entries[1..], trailing))
  }

  // The entries of a block mapping need their key indicators. In a flow
  // sequence the token after the key indicator of a pair without a key is
  // taken whatever it is, so that the pair must have no value, either, and a
  // value indicator or a last separator to lose.
  predicate SupportedOne(tags: seq<TagDirective>, s: Shape, e: Entry, lastSeparated: bool)
    decreases e
  {
    match e
    case Item(n) => Supported(tags, n)
    case Pair(hasKey, key, hasValue, value) =>
      && Supported(tags, key) && Supported(tags, value)
      && (s == BlockMapping ==> hasKey)
      && (s == FlowSequence && key.Missing? ==> value.Missing? && (hasValue || lastSeparated))
  }

  // ---------- documents ----------

  datatype Directive = Version(major: int, minor: int) | Handle(handle: string, prefix: string)

  // A document with a start indicator and directives, or without.
  datatype Document = Document(explicit: bool, directives: seq<Directive>, root: Node, ends: nat)

  predicate DerivedDocument(d: Document, first: bool) {
    if d.explicit then Optional(d.root, true, false) else first && d.directives == [] && Derived(d.root, true, false)
  }

  // Only the first document can do without a start indicator.
  predicate DerivedStream(docs: seq<Document>, first: bool)
    decreases |docs|
  {
    docs == [] || (DerivedDocument(docs[0], first) && DerivedStream(docs[1..], false))
  }

  function DirectiveToken(d: Directive): Token {
    match d
    case Version(major, minor) => Sign(VersionDirectiveToken).(major := major, minor := minor)
    case Handle(handle, prefix) => Sign(TagDirectiveToken).(value := handle, prefix := prefix)
  }

  function DirectiveTokens(ds: seq<Directive>): seq<Token> {
    if ds == [] then [] else [DirectiveToken(ds[0])] + DirectiveTokens(ds[1..])
  }

  function EndTokens(n: nat): seq<Token> {
    if n == 0 then [] else [Sign(DocumentEndToken)] + EndTokens(n - 1)
  }

  function HeadTokens(d: Document): seq<Token> {
    if d.explicit then DirectiveTokens(d.directives) + [Sign(DocumentStartToken)] else []
  }

  // The documents and the end of the stream.
  function RestTokens(docs: seq<Document>): seq<Token>
    decreases |docs|
  {
    if docs == [] then [Sign(StreamEndToken)]
    else HeadTokens(docs[0]) + (Tokens(docs[0].root) + (EndTokens(docs[0].ends) + RestTokens(docs[1..])))
  }

  function StreamTokens(docs: seq<Document>): seq<Token> {
    [Sign(StreamStartToken)] + RestTokens(docs)
  }

  function Handles(ds: seq<Directive>): seq<TagDirective> {
    if ds == [] then []
    else (if ds[0].Handle? then [TagDirective(ds[0].handle, ds[0].prefix)] else []) + Handles(ds[1..])
  }

  predicate Given(ds: seq<Directive>, handle: string) {
    exists d :: d in ds && d.Handle? && d.handle == handle
  }

  // The two handles that need no directive can have one.
  function TagsOf(d: Document): seq<TagDirective> {
    var bang := if Given(d.directives, "!") then [] else [TagDirective("!", "!")];
    var double := if Given(d.directives, "!!") then [] else [TagDirective("!!", "tag:yaml.org,2002:")];
    Handles(d.directives) + bang + double
  }

  lemma {:induction false} HandlesGiven(ds: seq<Directive>, handle: string)
    ensures Defined(Handles(ds), handle) <==> Given(ds, handle)
  {
    if ds != [] {
      HandlesGiven(ds[1..], handle);
      assert ds == [ds[0]] + ds[1..];
      var first: seq<TagDirective> := if ds[0].Handle? then [TagDirective(ds[0].handle, ds[0].prefix)] else [];
      assert Handles(ds) == first + Handles(ds[1..]);
      assert Defined(first, handle) <==> ds[0].Handle? && ds[0].handle == handle by {
        if ds[0].Handle? { assert first[0] in first; }
      }
      DefinedJoin(first, Handles(ds[1..]), handle);
      assert Given(ds, handle) <==> Given([ds[0]], handle) || Given(ds[1..], handle);
      assert ds[0] in [ds[0]];
    }
  }

  lemma DefinedJoin(a: seq<TagDirective>, b: seq<TagDirective>, handle: string)
    ensures Defined(a + b, handle) <==> Defined(a, handle) || Defined(b, handle)
  {
  }

  // The parser knows the same handles.
  lemma TagsAgree(d: Document)
    ensures WithDefaults(Handles(d.directives)) == TagsOf(d)
  {
    var tags, bang := Handles(d.directives), [TagDirective("!", "!")];
    HandlesGiven(d.directives, "!");
    HandlesGiven(d.directives, "!!");
    DefinedJoin(tags, bang, "!!");
    hide Handles, Given;
    assert tags + [] == tags && tags + bang + [] == tags + bang;
  }

  function RestEvents(docs: seq<Document>): seq<Event>
    decreases |docs|
  {
    if docs == [] then [StreamEnd]
    else [DocumentStart] + (Events(TagsOf(docs[0]), docs[0].root) + ([DocumentEnd(docs[0].ends == 0)] + RestEvents(docs[1..])))
  }

  function StreamEvents(docs: seq<Document>): seq<Event> {
    [StreamStart] + RestEvents(docs)
  }

  // One version at most, and that is 1.1; no handle twice.
  predicate SupportedDirectives(ds: seq<Directive>) {
    && (forall i :: 0 <= i < |ds| && ds[i].Version? ==> ds[i] == Version(1, 1))
    && (forall i, j :: 0 <= i < j < |ds| ==> !(ds[i].Version? && ds[j].Version?))
    && (forall i, j :: 0 <= i < j < |ds| && ds[i].Handle? && ds[j].Handle? ==> ds[i].handle != ds[j].handle)
  }

  predicate SupportedDocument(d: Document) {
    SupportedDirectives(d.directives) && Supported(TagsOf(d), d.root)
  }

  predicate SupportedStream(docs: seq<Document>) {
    forall k :: 0 <= k < |docs| ==> SupportedDocument(docs[k])
  }
}
