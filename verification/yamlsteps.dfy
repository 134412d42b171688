// The YAML event parser as functions: what one call for an event does with the
// tokens, the state and the stack of states.

module YamlSteps {
  import opened YamlEvents

  datatype Kind =
    | StreamStartToken | StreamEndToken | VersionDirectiveToken | TagDirectiveToken
    | DocumentStartToken | DocumentEndToken
    | BlockSequenceStartToken | BlockMappingStartToken | BlockEndToken
    | FlowSequenceStartToken | FlowSequenceEndToken | FlowMappingStartToken | FlowMappingEndToken
    | BlockEntryToken | FlowEntryToken | KeyToken | ValueToken
    | AliasToken | AnchorToken | TagToken | ScalarToken

  datatype Token = Token(kind: Kind, value: string, suffix: string, prefix: string, plain: bool, major: int, minor: int)

  datatype Option<T> = Some(value: T) | None

  datatype TagDirective = TagDirective(handle: string, prefix: string)

  datatype PState =
    | AtStreamStart | AtImplicitDocumentStart | AtDocumentStart | AtDocumentContent | AtDocumentEnd
    | AtBlockNode | AtBlockNodeOrIndentlessSequence | AtFlowNode
    | AtBlockSequenceFirstEntry | AtBlockSequenceEntry | AtIndentlessSequenceEntry
    | AtBlockMappingFirstKey | AtBlockMappingKey | AtBlockMappingValue
    | AtFlowSequenceFirstEntry | AtFlowSequenceEntry
    | AtFlowSequenceEntryMappingKey | AtFlowSequenceEntryMappingValue | AtFlowSequenceEntryMappingEnd
    | AtFlowMappingFirstKey | AtFlowMappingKey | AtFlowMappingValue | AtFlowMappingEmptyValue
    | AtEnd

  // The parser between two events; of the marks only their number matters.
  datatype Config = Config(pos: nat, state: PState, states: seq<PState>, marks: nat, tags: seq<TagDirective>)

  datatype Outcome = Gives(event: Event, next: Config) | Fails

  const EMPTY := Scalar("", "", "", true, false)

  const START := Config(0, AtStreamStart, [], 0, [])

  predicate Is(tokens: seq<Token>, i: nat, k: Kind) {
    i < |tokens| && tokens[i].kind == k
  }

  // The top state goes on.
  function Popped(c: Config, event: Event): Outcome {
    var n := |c.states| - 1;
    if c.states == [] then Fails else Gives(event, c.(state := c.states[n], states := c.states[..n]))
  }

  // ---------- nodes ----------

  function Resolved(tags: seq<TagDirective>, handle: string, suffix: string): string {
    if tags == [] then "" else if tags[0].handle == handle then tags[0].prefix + suffix else Resolved(tags[1..], handle, suffix)
  }

  datatype Properties = Properties(anchor: string, tag: string, next: nat) | NoProperties

  function TagOf(tags: seq<TagDirective>, handle: string, suffix: string): Option<string> {
    if handle == "" then Some(suffix)
    else var tag := Resolved(tags, handle, suffix); if tag == "" then None else Some(tag)
  }

  function WithTag(tags: seq<TagDirective>, anchor: string, t: Token, next: nat): Properties {
    match TagOf(tags, t.value, t.suffix)
    case None => NoProperties
    case Some(tag) => Properties(anchor, tag, next)
  }

  // The anchor and the tag at i, in either order.
  function PropertiesAt(tokens: seq<Token>, i: nat, tags: seq<TagDirective>): Properties {
    if Is(tokens, i, AnchorToken) then
      if Is(tokens, i + 1, TagToken) then
        if i + 2 < |tokens| then WithTag(tags, tokens[i].value, tokens[i + 1], i + 2) else NoProperties
      else if i + 1 < |tokens| then Properties(tokens[i].value, "", i + 1) else NoProperties
    else if Is(tokens, i, TagToken) then
      if Is(tokens, i + 1, AnchorToken) then
        if i + 2 < |tokens| then WithTag(tags, tokens[i + 1].value, tokens[i], i + 2) else NoProperties
      else if i + 1 < |tokens| then WithTag(tags, "", tokens[i], i + 1) else NoProperties
    else if i < |tokens| then Properties("", "", i) else NoProperties
  }

  // The start of a collection; its token stays for the first state to take.
  function StartStep(tokens: seq<Token>, c: Config, block: bool, indentless: bool, anchor: string, tag: string): Outcome {
    if indentless && Is(tokens, c.pos, BlockEntryToken) then Gives(SequenceStart(anchor, tag, tag == "", false), c.(state := AtIndentlessSequenceEntry))
    else if Is(tokens, c.pos, FlowSequenceStartToken) then Gives(SequenceStart(anchor, tag, tag == "", true), c.(state := AtFlowSequenceFirstEntry))
    else if Is(tokens, c.pos, FlowMappingStartToken) then Gives(MappingStart(anchor, tag, tag == "", true), c.(state := AtFlowMappingFirstKey))
    else if block && Is(tokens, c.pos, BlockSequenceStartToken) then Gives(SequenceStart(anchor, tag, tag == "", false), c.(state := AtBlockSequenceFirstEntry))
    else if block && Is(tokens, c.pos, BlockMappingStartToken) then Gives(MappingStart(anchor, tag, tag == "", false), c.(state := AtBlockMappingFirstKey))
    else Fails
  }

  function ScalarOf(t: Token, anchor: string, tag: string): Event {
    var plain := (tag == "" && t.plain) || tag == "!";
    Scalar(anchor, tag, t.value, plain, !plain && tag == "")
  }

  function ContentStep(tokens: seq<Token>, c: Config, block: bool, indentless: bool, anchor: string, tag: string): Outcome {
    if Is(tokens, c.pos, ScalarToken) then Popped(c.(pos := c.pos + 1), ScalarOf(tokens[c.pos], anchor, tag))
    else
      var start := StartStep(tokens, c, block, indentless, anchor, tag);
      if start.Gives? then start
      else if anchor != "" || tag != "" then Popped(c, Scalar(anchor, tag, "", tag == "", false))
      else Fails
  }

  function NodeStep(tokens: seq<Token>, c: Config, block: bool, indentless: bool): Outcome {
    if Is(tokens, c.pos, AliasToken) then Popped(c.(pos := c.pos + 1), Alias(tokens[c.pos].value))
    else match PropertiesAt(tokens, c.pos, c.tags)
      case NoProperties => Fails
      case Properties(anchor, tag, i) => ContentStep(tokens, c.(pos := i), block, indentless, anchor, tag)
  }

  // A node, and then q.
  function ThenNode(tokens: seq<Token>, c: Config, q: PState, block: bool, indentless: bool): Outcome {
    NodeStep(tokens, c.(states := c.states + [q]), block, indentless)
  }

  // An empty node, and then q.
  function ThenEmpty(c: Config, q: PState): Outcome {
    Gives(EMPTY, c.(state := q))
  }

  // The end of a collection with a mark, and its last token.
  function EndMarked(c: Config, event: Event): Outcome {
    if c.marks == 0 then Fails else Popped(c.(pos := c.pos + 1, marks := c.marks - 1), event)
  }

  // The first token of a collection is taken and marked.
  function Entered(c: Config, first: bool): Config {
    if first then c.(pos := c.pos + 1, marks := c.marks + 1) else c
  }

  // ---------- collections ----------

  function BlockSequenceStep(tokens: seq<Token>, c: Config): Outcome {
    if Is(tokens, c.pos, BlockEntryToken) then
      var d := c.(pos := c.pos + 1);
      if d.pos >= |tokens| then Fails
      else if !Is(tokens, d.pos, BlockEntryToken) && !Is(tokens, d.pos, BlockEndToken) then ThenNode(tokens, d, AtBlockSequenceEntry, true, false)
      else ThenEmpty(d, AtBlockSequenceEntry)
    else if Is(tokens, c.pos, BlockEndToken) then EndMarked(c, SequenceEnd)
    else Fails
  }

  function IndentlessStep(tokens: seq<Token>, c: Config): Outcome {
    if Is(tokens, c.pos, BlockEntryToken) then
      var d := c.(pos := c.pos + 1);
      if d.pos >= |tokens| then Fails
      else if !Is(tokens, d.pos, BlockEntryToken) && !Is(tokens, d.pos, KeyToken) && !Is(tokens, d.pos, ValueToken) && !Is(tokens, d.pos, BlockEndToken)
      then ThenNode(tokens, d, AtIndentlessSequenceEntry, true, false)
      else ThenEmpty(d, AtIndentlessSequenceEntry)
    else if c.pos < |tokens| then Popped(c, SequenceEnd)
    else Fails
  }

  predicate EndsBlockNode(tokens: seq<Token>, i: nat) {
    Is(tokens, i, KeyToken) || Is(tokens, i, ValueToken) || Is(tokens, i, BlockEndToken)
  }

  function BlockKeyStep(tokens: seq<Token>, c: Config): Outcome {
    if Is(tokens, c.pos, KeyToken) then
      var d := c.(pos := c.pos + 1);
      if d.pos >= |tokens| then Fails
      else if !EndsBlockNode(tokens, d.pos) then ThenNode(tokens, d, AtBlockMappingValue, true, true)
      else ThenEmpty(d, AtBlockMappingValue)
    else if Is(tokens, c.pos, BlockEndToken) then EndMarked(c, MappingEnd)
    else Fails
  }

  function BlockValueStep(tokens: seq<Token>, c: Config): Outcome {
    if Is(tokens, c.pos, ValueToken) then
      var d := c.(pos := c.pos + 1);
      if d.pos >= |tokens| then Fails
      else if !EndsBlockNode(tokens, d.pos) then ThenNode(tokens, d, AtBlockMappingKey, true, true)
      else ThenEmpty(d, AtBlockMappingKey)
    else if c.pos < |tokens| then ThenEmpty(c, AtBlockMappingKey)
    else Fails
  }

  // Past the separator, which all entries but the first need.
  function PastFlowEntry(tokens: seq<Token>, c: Config, first: bool): Option<Config> {
    if first then Some(c)
    else if Is(tokens, c.pos, FlowEntryToken) && c.pos + 1 < |tokens| then Some(c.(pos := c.pos + 1))
    else None
  }

  // A key in a flow sequence starts a mapping of one pair.
  function FlowItemStep(tokens: seq<Token>, d: Config): Outcome {
    if Is(tokens, d.pos, KeyToken) then Gives(MappingStart("", "", true, true), d.(pos := d.pos + 1, state := AtFlowSequenceEntryMappingKey))
    else if !Is(tokens, d.pos, FlowSequenceEndToken) then ThenNode(tokens, d, AtFlowSequenceEntry, false, false)
    else EndMarked(d, SequenceEnd)
  }

  function FlowSequenceStep(tokens: seq<Token>, c: Config, first: bool): Outcome {
    if c.pos >= |tokens| then Fails
    else if Is(tokens, c.pos, FlowSequenceEndToken) then EndMarked(c, SequenceEnd)
    else match PastFlowEntry(tokens, c, first)
      case None => Fails
      case Some(d) => FlowItemStep(tokens, d)
  }

  // Whichever of the three it is, the token that stands for no key is taken.
  function FlowPairKeyStep(tokens: seq<Token>, c: Config): Outcome {
    if c.pos >= |tokens| then Fails
    else if !Is(tokens, c.pos, ValueToken) && !Is(tokens, c.pos, FlowEntryToken) && !Is(tokens, c.pos, FlowSequenceEndToken)
    then ThenNode(tokens, c, AtFlowSequenceEntryMappingValue, false, false)
    else ThenEmpty(c.(pos := c.pos + 1), AtFlowSequenceEntryMappingValue)
  }

  function FlowPairValueStep(tokens: seq<Token>, c: Config): Outcome {
    if Is(tokens, c.pos, ValueToken) then
      var d := c.(pos := c.pos + 1);
      if d.pos >= |tokens| then Fails
      else if !Is(tokens, d.pos, FlowEntryToken) && !Is(tokens, d.pos, FlowSequenceEndToken) then ThenNode(tokens, d, AtFlowSequenceEntryMappingEnd, false, false)
      else ThenEmpty(d, AtFlowSequenceEntryMappingEnd)
    else if c.pos < |tokens| then ThenEmpty(c, AtFlowSequenceEntryMappingEnd)
    else Fails
  }

  function FlowPairEndStep(tokens: seq<Token>, c: Config): Outcome {
    if c.pos < |tokens| then Gives(MappingEnd, c.(state := AtFlowSequenceEntry)) else Fails
  }

  function FlowAfterKeyStep(tokens: seq<Token>, c: Config): Outcome {
    if c.pos >= |tokens| then Fails
    else if !Is(tokens, c.pos, ValueToken) && !Is(tokens, c.pos, FlowEntryToken) && !Is(tokens, c.pos, FlowMappingEndToken)
    then ThenNode(tokens, c, AtFlowMappingValue, false, false)
    else ThenEmpty(c, AtFlowMappingValue)
  }

  function FlowEntryStep(tokens: seq<Token>, d: Config): Outcome {
    if Is(tokens, d.pos, KeyToken) then FlowAfterKeyStep(tokens, d.(pos := d.pos + 1))
    else if !Is(tokens, d.pos, FlowMappingEndToken) then ThenNode(tokens, d, AtFlowMappingEmptyValue, false, false)
    else EndMarked(d, MappingEnd)
  }

  function FlowKeyStep(tokens: seq<Token>, c: Config, first: bool): Outcome {
    if c.pos >= |tokens| then Fails
    else if Is(tokens, c.pos, FlowMappingEndToken) then EndMarked(c, MappingEnd)
    else match PastFlowEntry(tokens, c, first)
      case None => Fails
      case Some(d) => FlowEntryStep(tokens, d)
  }

  function FlowValueStep(tokens: seq<Token>, c: Config, empty: bool): Outcome {
    if c.pos >= |tokens| then Fails
    else if !empty && Is(tokens, c.pos, ValueToken) then
      var d := c.(pos := c.pos + 1);
      if d.pos >= |tokens| then Fails
      else if !Is(tokens, d.pos, FlowEntryToken) && !Is(tokens, d.pos, FlowMappingEndToken) then ThenNode(tokens, d, AtFlowMappingKey, false, false)
      else ThenEmpty(d, AtFlowMappingKey)
    else ThenEmpty(c, AtFlowMappingKey)
  }

  // ---------- documents ----------

  datatype Directives = Directives(tags: seq<TagDirective>, next: nat) | BadDirectives

  predicate Defined(tags: seq<TagDirective>, handle: string) {
    exists t :: t in tags && t.handle == handle
  }

  // A handle may be given once; the two that are always there keep what was given.
  function WithDefaults(tags: seq<TagDirective>): seq<TagDirective> {
    var bang := if Defined(tags, "!") then tags else tags + [TagDirective("!", "!")];
    if Defined(bang, "!!") then bang else bang + [TagDirective("!!", "tag:yaml.org,2002:")]
  }

  function DirectivesAt(tokens: seq<Token>, i: nat, tags: seq<TagDirective>, version: bool): Directives
    decreases |tokens| - i
  {
    if Is(tokens, i, VersionDirectiveToken) then
      if version || tokens[i].major != 1 || tokens[i].minor != 1 then BadDirectives else DirectivesAt(tokens, i + 1, tags, true)
    else if Is(tokens, i, TagDirectiveToken) then
      if Defined(tags, tokens[i].value) then BadDirectives
      else DirectivesAt(tokens, i + 1, tags + [TagDirective(tokens[i].value, tokens[i].prefix)], version)
    else if i < |tokens| then Directives(WithDefaults(tags), i)
    else BadDirectives
  }

  function PastDocumentEnds(tokens: seq<Token>, i: nat): (j: nat)
    ensures i <= j && (i <= |tokens| ==> j <= |tokens|)
    decreases |tokens| - i
  {
    if Is(tokens, i, DocumentEndToken) then PastDocumentEnds(tokens, i + 1) else i
  }

  function StreamStartStep(tokens: seq<Token>, c: Config): Outcome {
    if Is(tokens, c.pos, StreamStartToken) then Gives(StreamStart, c.(pos := c.pos + 1, state := AtImplicitDocumentStart)) else Fails
  }

  predicate ExplicitStart(tokens: seq<Token>, i: nat) {
    Is(tokens, i, VersionDirectiveToken) || Is(tokens, i, TagDirectiveToken) || Is(tokens, i, DocumentStartToken) || Is(tokens, i, StreamEndToken)
  }

  function ExplicitStep(tokens: seq<Token>, c: Config): Outcome {
    match DirectivesAt(tokens, c.pos, c.tags, false)
    case BadDirectives => Fails
    case Directives(tags, i) =>
      if !Is(tokens, i, DocumentStartToken) then Fails
      else Gives(DocumentStart, c.(pos := i + 1, state := AtDocumentContent, states := c.states + [AtDocumentEnd], tags := tags))
  }

  function DocumentStartStep(tokens: seq<Token>, c: Config, implicit: bool): Outcome {
    var d := if implicit then c else c.(pos := PastDocumentEnds(tokens, c.pos));
    if d.pos >= |tokens| then Fails
    else if implicit && !ExplicitStart(tokens, d.pos) then
      Gives(DocumentStart, d.(state := AtBlockNode, states := d.states + [AtDocumentEnd], tags := WithDefaults(d.tags)))
    else if !Is(tokens, d.pos, StreamEndToken) then ExplicitStep(tokens, d)
    else Gives(StreamEnd, d.(pos := d.pos + 1, state := AtEnd))
  }

  function DocumentContentStep(tokens: seq<Token>, c: Config): Outcome {
    if ExplicitStart(tokens, c.pos) || Is(tokens, c.pos, DocumentEndToken) then Popped(c, EMPTY) else NodeStep(tokens, c, true, false)
  }

  function DocumentEndStep(tokens: seq<Token>, c: Config): Outcome {
    if c.pos >= |tokens| then Fails
    else
      var implicit := !Is(tokens, c.pos, DocumentEndToken);
      Gives(DocumentEnd(implicit), c.(pos := if implicit then c.pos else c.pos + 1, state := AtDocumentStart, tags := []))
  }

  // The dispatcher.
  function Step(tokens: seq<Token>, c: Config): Outcome {
    match c.state
    case AtStreamStart => StreamStartStep(tokens, c)
    case AtImplicitDocumentStart => DocumentStartStep(tokens, c, true)
    case AtDocumentStart => DocumentStartStep(tokens, c, false)
    case AtDocumentContent => DocumentContentStep(tokens, c)
    case AtDocumentEnd => DocumentEndStep(tokens, c)
    case AtBlockNode => NodeStep(tokens, c, true, false)
    case AtBlockNodeOrIndentlessSequence => NodeStep(tokens, c, true, true)
    case AtFlowNode => NodeStep(tokens, c, false, false)
    case AtBlockSequenceFirstEntry => BlockSequenceStep(tokens, Entered(c, true))
    case AtBlockSequenceEntry => BlockSequenceStep(tokens, c)
    case AtIndentlessSequenceEntry => IndentlessStep(tokens, c)
    case AtBlockMappingFirstKey => BlockKeyStep(tokens, Entered(c, true))
    case AtBlockMappingKey => BlockKeyStep(tokens, c)
    case AtBlockMappingValue => BlockValueStep(tokens, c)
    case AtFlowSequenceFirstEntry => FlowSequenceStep(tokens, Entered(c, true), true)
    case AtFlowSequenceEntry => FlowSequenceStep(tokens, c, false)
    case AtFlowSequenceEntryMappingKey => FlowPairKeyStep(tokens, c)
    case AtFlowSequenceEntryMappingValue => FlowPairValueStep(tokens, c)
    case AtFlowSequenceEntryMappingEnd => FlowPairEndStep(tokens, c)
    case AtFlowMappingFirstKey => FlowKeyStep(tokens, Entered(c, true), true)
    case AtFlowMappingKey => FlowKeyStep(tokens, c, false)
    case AtFlowMappingValue => FlowValueStep(tokens, c, false)
    case AtFlowMappingEmptyValue => FlowValueStep(tokens, c, true)
    case AtEnd => Fails
  }
}
