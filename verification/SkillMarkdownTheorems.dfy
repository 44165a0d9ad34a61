/** Printing and parsing a SKILL.md undo each other. */
module SkillMarkdownTheorems {
  import opened Wrappers
  import opened SkillMarkdown

  /**
   What YAML writes for a mapping ends in a newline, holds no carriage return and no bare delimiter line, and loads
   back.
  */
  ghost predicate YamlUndoes(codec: Codec, f: map<string, Yaml>) {
    var text := codec.dumpYaml(Mapping(f, false));
    && |text| > 0 && text[|text| - 1] == '\n' && '\r' !in text
    && Delimiter !in Lines(text[..|text| - 1])
    && codec.loadYaml(text[..|text| - 1]) == Some(Mapping(f, false))
  }

  ghost predicate JsonUndoes(codec: Codec, tags: seq<string>) {
    codec.loadJson(codec.dumpJson(tags)) == Some(Strings(tags))
  }

  /** On what the printer hands them for this content the libraries undo themselves, and a space is whitespace. */
  ghost predicate Undoes(codec: Codec, name: string, c: Content) {
    codec.isSpace(' ') && YamlUndoes(codec, Frontmatter(codec, name, c)) && (c.tags != [] ==> JsonUndoes(codec, c.tags))
  }

  /* ----- the text ----- */

  lemma {:induction false} FirstClosing(before: seq<string>, after: seq<string>, i: nat)
    requires i <= |before| && forall j :: i <= j < |before| ==> before[j] != Delimiter
    ensures ClosingLine(before + [Delimiter] + after, i) == |before|
    decreases |before| - i
  {
    if i < |before| {
      FirstClosing(before, after, i + 1);
    }
  }

  function Assembled(yaml: string, body: string): string {
    Delimiter + "\n" + (yaml + "\n" + (Delimiter + "\n" + body))
  }

  lemma AssembledLines(yaml: string, body: string)
    ensures Lines(Assembled(yaml, body)) == [Delimiter] + (Lines(yaml) + ([Delimiter] + Lines(body)))
  {
    LinesOfOne(Delimiter);
    LinesOfConcat(Delimiter, body);
    LinesOfConcat(yaml, Delimiter + "\n" + body);
    LinesOfConcat(Delimiter, yaml + "\n" + (Delimiter + "\n" + body));
  }

  lemma PartsOfLines(lines: seq<string>, before: seq<string>, after: seq<string>)
    requires lines == [Delimiter] + (before + ([Delimiter] + after)) && Delimiter !in before
    ensures var closing := ClosingLine(lines, 1);
            closing < |lines| && lines[1..closing] == before && lines[closing + 1..] == after
  {
    assert lines == ([Delimiter] + before) + [Delimiter] + after;
    FirstClosing([Delimiter] + before, after, 1);
  }

  /** Frontmatter without a delimiter line comes apart again, whatever lines the body has. */
  lemma SplitUndoesAssembly(yaml: string, body: string)
    requires Delimiter !in Lines(yaml)
    ensures SplitFrontmatter(Assembled(yaml, body)) == Ok(Parts(yaml, body))
  {
    AssembledLines(yaml, body);
    PartsOfLines(Lines(Assembled(yaml, body)), Lines(yaml), Lines(body));
    UnlinesOfLines(yaml);
    UnlinesOfLines(body);
  }

  /** The parser reads the very frontmatter mapping and body the printer wrote. */
  lemma SerializedComesApart(codec: Codec, name: string, c: Content)
    requires YamlUndoes(codec, Frontmatter(codec, name, c)) && '\r' !in c.procedure
    ensures var yaml := codec.dumpYaml(Mapping(Frontmatter(codec, name, c), false));
            && |yaml| > 0
            && SplitFrontmatter(NormalizeNewlines(Serialize(codec, name, c)))
               == Ok(Parts(yaml[..|yaml| - 1], c.procedure))
            && codec.loadYaml(yaml[..|yaml| - 1]) == Some(Mapping(Frontmatter(codec, name, c), false))
  {
    var f := Frontmatter(codec, name, c);
    var yaml := codec.dumpYaml(Mapping(f, false));
    var y := yaml[..|yaml| - 1];
    assert yaml == y + "\n";
    var text := Serialize(codec, name, c);
    assert text == Assembled(y, c.procedure);
    NothingToNormalize(text);
    SplitUndoesAssembly(y, c.procedure);
  }

  /* ----- the fields ----- */

  /** The content a parse of the printed document makes: its tools are the words of the joined list. */
  function Reread(codec: Codec, c: Content): Content {
    c.(declaredTools := Words(codec.isSpace, JoinWords(c.declaredTools)))
  }

  lemma MetadataUndone(codec: Codec, name: string, c: Content)
    requires TagsKey !in c.metadata && (c.tags != [] ==> JsonUndoes(codec, c.tags))
    ensures var metadata := MetadataOf(Frontmatter(codec, name, c));
            metadata.Ok? && ExtractTags(codec, metadata.value) == Ok(Tagged(c.tags, c.metadata))
  {
    var exported := ExportMetadata(codec, c.metadata, c.tags);
    var f := Frontmatter(codec, name, c);
    if exported == map[] {
      assert c.tags == [] ==> c.metadata == map[];
      assert c.tags != [] ==> TagsKey in exported;
    } else {
      assert f["metadata"] == Mapping(Texts(exported), false);
      assert MetadataOf(f) == Ok(exported) by {
        assert (map k | k in Texts(exported) :: Texts(exported)[k].text) == exported;
      }
      if c.tags != [] { assert exported - {TagsKey} == c.metadata; }
    }
  }

  lemma FieldsUndone(codec: Codec, name: string, c: Content)
    ensures var f := Frontmatter(codec, name, c);
            && RequireString(f, "name") == Ok(name) && RequireString(f, "description") == Ok(c.description)
            && OptionalString(f, "license") == Ok(c.license)
            && OptionalString(f, "compatibility") == Ok(c.compatibility)
  {
  }

  lemma ToolsUndone(codec: Codec, name: string, c: Content)
    ensures OptionalString(Frontmatter(codec, name, c), "allowed-tools")
            == Ok(if c.declaredTools == [] then None else Some(JoinWords(c.declaredTools)))
  {
  }

  /** Every printed document parses, to the same name and content but for how its tools split. */
  lemma SerializedParses(codec: Codec, name: string, c: Content)
    requires Undoes(codec, name, c) && ValidName(name) && ValidContent(codec.isSpace, c)
    ensures Parse(codec, Serialize(codec, name, c)) == Ok(Document(name, Reread(codec, c)))
  {
    var f := Frontmatter(codec, name, c);
    var yaml := codec.dumpYaml(Mapping(f, false));
    SerializedComesApart(codec, name, c);
    FrontmatterIsAllowed(codec, name, c);
    ParseOfParts(codec, Serialize(codec, name, c), yaml[..|yaml| - 1], f, c.procedure);
    FieldsParse(codec, name, c);
  }

  lemma ParseOfParts(codec: Codec, raw: string, yaml: string, f: map<string, Yaml>, body: string)
    requires SplitFrontmatter(NormalizeNewlines(raw)) == Ok(Parts(yaml, body))
    requires codec.loadYaml(yaml) == Some(Mapping(f, false)) && forall k :: k in f ==> AllowedField(k)
    ensures Parse(codec, raw) == ParseFields(codec, f, body)
  {
  }

  lemma FrontmatterIsAllowed(codec: Codec, name: string, c: Content)
    ensures forall k :: k in Frontmatter(codec, name, c) ==> AllowedField(k)
  {
  }

  lemma FieldsParse(codec: Codec, name: string, c: Content)
    requires codec.isSpace(' ') && (c.tags != [] ==> JsonUndoes(codec, c.tags))
    requires ValidName(name) && ValidContent(codec.isSpace, c)
    ensures ParseFields(codec, Frontmatter(codec, name, c), c.procedure) == Ok(Document(name, Reread(codec, c)))
  {
    MetadataUndone(codec, name, c);
    ToolsUndone(codec, name, c);
    FieldsValidate(codec, name, c, Words(codec.isSpace, JoinWords(c.declaredTools)));
  }

  lemma FieldsValidate(codec: Codec, name: string, c: Content, tools: seq<string>)
    requires ValidName(name) && ValidContent(codec.isSpace, c)
             && tools == Words(codec.isSpace, JoinWords(c.declaredTools))
    ensures Validated(codec, Frontmatter(codec, name, c), Tagged(c.tags, c.metadata), tools, c.procedure)
            == Ok(Document(name, Reread(codec, c)))
  {
    FieldsUndone(codec, name, c);
    WordsAreWords(codec.isSpace, JoinWords(c.declaredTools));
    NothingToNormalize(c.procedure);
    StrictlySortedIsCanonical(c.tags);
  }

  /* ----- the theorems ----- */

  ghost predicate ToolsAreWords(codec: Codec, c: Content) {
    forall t :: t in c.declaredTools ==> IsWord(codec.isSpace, t)
  }

  /**
   The round trip: for content the validators accept, parsing the printed document gives
   the same name and content exactly when no declared tool contains whitespace.
   Procedures may hold delimiter lines.
  */
  lemma RoundTrip(codec: Codec, name: string, c: Content)
    requires Undoes(codec, name, c) && ValidName(name) && ValidContent(codec.isSpace, c)
    ensures Parse(codec, Serialize(codec, name, c)) == Ok(Document(name, c)) <==> ToolsAreWords(codec, c)
  {
    SerializedParses(codec, name, c);
    SplitUndoesJoin(codec.isSpace, c.declaredTools);
  }

  /** The canonical object, and with it the content hash, survives exactly the same contents. */
  lemma CanonicalRoundTrip(codec: Codec, name: string, c: Content)
    requires Undoes(codec, name, c) && ValidName(name) && ValidContent(codec.isSpace, c)
    ensures var parsed := Parse(codec, Serialize(codec, name, c));
            parsed.Ok? && (CanonicalObject(parsed.value.name, parsed.value.content) == CanonicalObject(name, c)
                           <==> ToolsAreWords(codec, c))
  {
    SerializedParses(codec, name, c);
    SplitUndoesJoin(codec.isSpace, c.declaredTools);
    var words := Words(codec.isSpace, JoinWords(c.declaredTools));
    WordsAreWords(codec.isSpace, JoinWords(c.declaredTools));
    if SortStrings(words) == SortStrings(c.declaredTools) {
      forall t | t in c.declaredTools ensures IsWord(codec.isSpace, t) {
        SortHasSame(c.declaredTools, t);
        SortHasSame(words, t);
      }
    }
  }

  function TwoWordTool(): Content {
    Content("d", "a", None, None, map[], [], ["a a"])
  }

  /** A tool with a space in it comes back as two. */
  lemma ToolWithSpaceSplits(codec: Codec)
    requires !codec.isSpace('a') && Undoes(codec, "n", TwoWordTool())
    ensures Parse(codec, Serialize(codec, "n", TwoWordTool())) != Ok(Document("n", TwoWordTool()))
  {
    var c := TwoWordTool();
    assert c.procedure[0] == 'a';
    RoundTrip(codec, "n", c);
    assert "a a" in c.declaredTools && "a a"[1] == ' ';
  }

  lemma ParsedFieldsAreValid(codec: Codec, f: map<string, Yaml>, body: string)
    ensures var parsed := ParseFields(codec, f, body);
            parsed.Ok? ==> ValidName(parsed.value.name) && ValidContent(codec.isSpace, parsed.value.content)
                           && ToolsAreWords(codec, parsed.value.content)
  {
    var parsed := ParseFields(codec, f, body);
    if parsed.Ok? {
      var tagged := ExtractTags(codec, MetadataOf(f).value).value;
      var tools := OptionalString(f, "allowed-tools").value;
      if tools.Some? { WordsAreWords(codec.isSpace, tools.value); }
      CanonicalTagsAre(tagged.tags);
      NormalizedIsStable(body);
    }
  }

  /** Whatever an import accepts is valid content, and exporting it and importing again gives it back. */
  lemma ImportsRoundTrip(codec: Codec, raw: string)
    requires Parse(codec, raw).Ok?
    requires var document := Parse(codec, raw).value; Undoes(codec, document.name, document.content)
    ensures var document := Parse(codec, raw).value;
            && ValidName(document.name) && ValidContent(codec.isSpace, document.content)
            && Parse(codec, Serialize(codec, document.name, document.content)) == Ok(document)
  {
    var parts := SplitFrontmatter(NormalizeNewlines(raw)).value;
    ParsedFieldsAreValid(codec, LoadFrontmatter(codec, parts.yaml).value, parts.body);
    var document := Parse(codec, raw).value;
    RoundTrip(codec, document.name, document.content);
  }

  /* ----- as loops ----- */

  /** The scan of _split_frontmatter, stopping at the first closing delimiter. */
  method FindClosing(lines: seq<string>) returns (closing: Option<nat>)
    ensures closing == if |lines| == 0 || ClosingLine(lines, 1) == |lines| then None else Some(ClosingLine(lines, 1))
  {
    closing := None;
    var index := 1;
    while index < |lines|
      invariant |lines| > 0 ==> 1 <= index <= |lines| && ClosingLine(lines, index) == ClosingLine(lines, 1)
    {
      if lines[index] == Delimiter {
        closing := Some(index);
        break;
      }
      index := index + 1;
    }
  }

  /**
   serialize_skill_markdown: the dictionary filled key by key, then dumped. What it prints parses back to the
   name and content, tools aside, and to exactly those if no tool has whitespace.
  */
  method SerializeSkill(codec: Codec, name: string, c: Content) returns (text: string)
    ensures text == Serialize(codec, name, c)
    ensures Undoes(codec, name, c) && ValidName(name) && ValidContent(codec.isSpace, c) ==>
              && Parse(codec, text) == Ok(Document(name, Reread(codec, c)))
              && (Parse(codec, text) == Ok(Document(name, c)) <==> ToolsAreWords(codec, c))
  {
    var f := map["name" := Text(name), "description" := Text(c.description)];
    if c.license.Some? {
      f := f["license" := Text(c.license.value)];
    }
    if c.compatibility.Some? {
      f := f["compatibility" := Text(c.compatibility.value)];
    }
    var combined := c.metadata;
    if c.tags != [] {
      combined := combined[TagsKey := codec.dumpJson(c.tags)];
    }
    if combined != map[] {
      f := f["metadata" := Mapping(Texts(combined), false)];
    }
    if c.declaredTools != [] {
      f := f["allowed-tools" := Text(JoinWords(c.declaredTools))];
    }
    assert f == Frontmatter(codec, name, c);
    text := Delimiter + "\n" + codec.dumpYaml(Mapping(f, false)) + Delimiter + "\n" + c.procedure;
    if Undoes(codec, name, c) && ValidName(name) && ValidContent(codec.isSpace, c) {
      SerializedParses(codec, name, c);
      RoundTrip(codec, name, c);
    }
  }
}
