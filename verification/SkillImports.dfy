/** What an import accepts and makes, told by the lines of the document as they arrive. */
module SkillImports {
  import opened Wrappers
  import opened SkillMarkdown

  /* ----- line breaks ----- */

  /** The lines of a text where "\r\n", "\n" and "\r" each are one line break. */
  function Breaks(s: string): (lines: seq<string>)
    ensures |lines| > 0
  {
    if s == "" then [""]
    else if |s| >= 2 && s[0] == '\r' && s[1] == '\n' then [""] + Breaks(s[2..])
    else if s[0] == '\r' || s[0] == '\n' then [""] + Breaks(s[1..])
    else
      var rest := Breaks(s[1..]);
      [[s[0]] + rest[0]] + rest[1..]
  }

  lemma {:induction false} ReplaceCrOf(c: char, s: string)
    ensures ReplaceCr([c] + s) == [if c == '\r' then '\n' else c] + ReplaceCr(s)
  {
    assert ([c] + s)[1..] == s;
  }

  lemma LinesOf(c: char, s: string)
    ensures Lines([c] + s) == if c == '\n' then [""] + Lines(s) else [[c] + Lines(s)[0]] + Lines(s)[1..]
  {
    assert ([c] + s)[1..] == s;
  }

  /** Normalizing makes every kind of line break one newline, and changes nothing else. */
  lemma {:induction false} NormalizedLines(s: string)
    ensures Lines(NormalizeNewlines(s)) == Breaks(s)
    decreases |s|
  {
    if s == "" {
      assert NormalizeNewlines(s) == "";
    } else if |s| >= 2 && s[0] == '\r' && s[1] == '\n' {
      NormalizedLines(s[2..]);
      ReplaceCrOf('\n', ReplaceCrLf(s[2..]));
      LinesOf('\n', NormalizeNewlines(s[2..]));
    } else {
      var c := if s[0] == '\r' then '\n' else s[0];
      NormalizedLines(s[1..]);
      FirstStays(s);
      ReplaceCrOf(s[0], ReplaceCrLf(s[1..]));
      LinesOf(c, NormalizeNewlines(s[1..]));
    }
  }

  lemma FirstStays(s: string)
    requires s != "" && !(|s| >= 2 && s[0] == '\r' && s[1] == '\n')
    ensures ReplaceCrLf(s) == [s[0]] + ReplaceCrLf(s[1..])
  {
    if |s| == 1 {
      assert s[1..] == "" && s == [s[0]];
    }
  }

  /* ----- names ----- */

  /** The parts between hyphens. */
  function HyphenParts(name: string): (parts: seq<string>)
    ensures |parts| > 0
  {
    if name == "" then [""]
    else if name[0] == '-' then [""] + HyphenParts(name[1..])
    else
      var rest := HyphenParts(name[1..]);
      [[name[0]] + rest[0]] + rest[1..]
  }

  predicate IsPart(part: string) {
    part != "" && forall i :: 0 <= i < |part| ==> 'a' <= part[i] <= 'z' || '0' <= part[i] <= '9'
  }

  /** Letters and digits, one hyphen at most between two of them, and none at either end. */
  predicate Hyphenated(name: string) {
    && (forall i :: 0 <= i < |name| ==> NameChar(name[i]) || name[i] == '-')
    && (name != "" ==> name[|name| - 1] != '-') && (forall i :: 0 <= i < |name| ==> !DoubledHyphen(name, i))
  }

  predicate Chars(part: string) {
    forall i :: 0 <= i < |part| ==> NameChar(part[i])
  }

  ghost predicate PartsFrom(parts: seq<string>, n: nat) {
    forall k :: n <= k < |parts| ==> IsPart(parts[k])
  }

  /** Nothing but the first part may be empty, and that one only before a leading hyphen. */
  lemma {:induction false} PartsOfHyphenated(name: string)
    ensures Hyphenated(name) <==> Chars(HyphenParts(name)[0]) && PartsFrom(HyphenParts(name), 1)
    ensures HyphenParts(name)[0] == "" <==> name == "" || name[0] == '-'
  {
    if name != "" {
      var parts, rest := HyphenParts(name), HyphenParts(name[1..]);
      PartsOfHyphenated(name[1..]);
      TailHyphenated(name);
      if name[0] == '-' {
        PartsShift(parts, rest);
        assert IsPart(rest[0]) <==> rest[0] != "" && Chars(rest[0]);
      } else {
        PartsSame(parts, rest);
        CharsCons(name[0], rest[0]);
      }
    }
  }

  lemma PartsShift(parts: seq<string>, rest: seq<string>)
    requires |rest| > 0 && parts == [""] + rest
    ensures PartsFrom(parts, 1) <==> IsPart(rest[0]) && PartsFrom(rest, 1)
  {
    assert forall k :: 0 <= k < |rest| ==> rest[k] == parts[k + 1];
    assert forall k :: 1 <= k < |parts| ==> parts[k] == rest[k - 1];
  }

  lemma PartsSame(parts: seq<string>, rest: seq<string>)
    requires |rest| > 0 && |parts| == |rest| && parts[1..] == rest[1..]
    ensures PartsFrom(parts, 1) <==> PartsFrom(rest, 1)
  {
    forall k | 1 <= k < |rest| ensures parts[k] == rest[k] {
      assert parts[k] == parts[1..][k - 1];
    }
  }

  lemma CharsCons(c: char, part: string)
    ensures Chars([c] + part) <==> NameChar(c) && Chars(part)
  {
    var all := [c] + part;
    assert forall i :: 0 <= i < |part| ==> part[i] == all[i + 1];
    assert forall i :: 1 <= i < |all| ==> all[i] == part[i - 1];
    assert all[0] == c;
  }

  lemma TailHyphenated(name: string)
    requires name != ""
    ensures Hyphenated(name) <==>
              && Hyphenated(name[1..]) && (NameChar(name[0]) || name[0] == '-')
              && (name[0] == '-' ==> |name| > 1 && name[1] != '-')
  {
    var tail := name[1..];
    assert forall i :: 0 <= i < |tail| ==> tail[i] == name[i + 1];
    assert forall i :: 1 <= i < |name| ==> name[i] == tail[i - 1];
    assert forall i :: 0 <= i < |tail| ==> (DoubledHyphen(tail, i) <==> DoubledHyphen(name, i + 1));
    assert forall i :: 1 <= i < |name| ==> (DoubledHyphen(name, i) <==> DoubledHyphen(tail, i - 1));
    assert DoubledHyphen(name, 0) <==> |name| > 1 && name[0] == '-' && name[1] == '-';
  }

  /** A name is valid exactly if it has at most 64 characters and is parts of letters and digits joined by hyphens. */
  lemma ValidNameIsParts(name: string)
    ensures ValidName(name) <==>
            |name| <= 64 && forall k :: 0 <= k < |HyphenParts(name)| ==> IsPart(HyphenParts(name)[k])
  {
    PartsOfHyphenated(name);
    assert ValidName(name) <==> 1 <= |name| <= 64 && Hyphenated(name) && name[0] != '-';
    if name != "" && name[0] != '-' {
      assert HyphenParts(name)[0] != "";
    } else {
      assert !IsPart(HyphenParts(name)[0]);
    }
  }

  /* ----- what an import accepts ----- */

  /** The frontmatter stands between a first line "---" and the next line "---". */
  predicate IsClosing(lines: seq<string>, closing: int) {
    && 0 < closing < |lines| && lines[0] == "---" && lines[closing] == "---"
    && forall j :: 0 < j < closing ==> lines[j] != "---"
  }

  predicate AbsentOrText(f: map<string, Yaml>, field: string) {
    field in f ==> f[field].Null? || f[field].Text?
  }

  /** Metadata is absent or a mapping of strings to strings, and the tags in it a JSON list of non-empty strings. */
  predicate MetadataAccepted(codec: Codec, f: map<string, Yaml>) {
    "metadata" in f && !f["metadata"].Null? ==>
      && f["metadata"].Mapping? && !f["metadata"].otherKeys
      && var entries := f["metadata"].entries;
         && (forall k :: k in entries ==> entries[k].Text?)
         && (TagsKey in entries ==>
               var loaded := codec.loadJson(entries[TagsKey].text);
               loaded.Some? && loaded.value.Strings? && "" !in loaded.value.items)
  }

  predicate FieldsAccepted(codec: Codec, f: map<string, Yaml>) {
    && (forall k :: k in f ==>
          || k == "name" || k == "description" || k == "license" || k == "compatibility"
          || k == "metadata" || k == "allowed-tools")
    && "name" in f && f["name"].Text? && ValidName(f["name"].text)
    && "description" in f && f["description"].Text? && 1 <= |f["description"].text| <= 1024
    && AbsentOrText(f, "license") && AbsentOrText(f, "allowed-tools") && AbsentOrText(f, "compatibility")
    && ("compatibility" in f && f["compatibility"].Text? ==> 1 <= |f["compatibility"].text| <= 500)
    && MetadataAccepted(codec, f)
  }

  predicate BodyAccepted(codec: Codec, body: string) {
    |body| <= 65536 && exists i :: 0 <= i < |body| && !codec.isSpace(body[i])
  }

  predicate PartsAccepted(codec: Codec, yaml: string, body: string) {
    var loaded := codec.loadYaml(yaml);
    && loaded.Some? && loaded.value.Mapping? && !loaded.value.otherKeys
    && FieldsAccepted(codec, loaded.value.entries) && BodyAccepted(codec, body)
  }

  lemma {:induction false} FirstClosingLine(lines: seq<string>, i: nat, closing: nat)
    requires i <= closing < |lines| && lines[closing] == "---" && forall j :: i <= j < closing ==> lines[j] != "---"
    ensures ClosingLine(lines, i) == closing
    decreases closing - i
  {
    if i < closing { FirstClosingLine(lines, i + 1, closing); }
  }

  /** Frontmatter and body are what stands before and after the closing line, if there is one. */
  lemma SplitIs(raw: string)
    ensures var lines, parts := Breaks(raw), SplitFrontmatter(NormalizeNewlines(raw));
            && (parts.Ok? <==> exists closing :: IsClosing(lines, closing))
            && forall closing :: IsClosing(lines, closing) ==>
                 parts == Ok(Parts(Unlines(lines[1..closing]), Unlines(lines[closing + 1..])))
  {
    NormalizedLines(raw);
    var lines := Breaks(raw);
    if lines[0] == "---" {
      var first := ClosingLine(lines, 1);
      if first < |lines| { assert IsClosing(lines, first); }
      forall closing | IsClosing(lines, closing) ensures closing == first {
        FirstClosingLine(lines, 1, closing);
      }
    }
  }

  lemma {:induction false} LinesHaveNoCr(s: string)
    requires '\r' !in s
    ensures forall k :: 0 <= k < |Lines(s)| ==> '\r' !in Lines(s)[k]
  {
    if s != "" {
      LinesHaveNoCr(s[1..]);
      var rest := Lines(s[1..]);
      assert s[0] in s;
      if s[0] != '\n' {
        forall k | 0 <= k < |Lines(s)| ensures '\r' !in Lines(s)[k] {
          if k == 0 { assert Lines(s)[0] == [s[0]] + rest[0]; } else { assert Lines(s)[k] == rest[k]; }
        }
      }
    }
  }

  lemma {:induction false} UnlinesHasNoCr(lines: seq<string>)
    requires forall k :: 0 <= k < |lines| ==> '\r' !in lines[k]
    ensures '\r' !in Unlines(lines)
  {
    if |lines| > 1 { UnlinesHasNoCr(lines[1..]); }
  }

  lemma BodyIsNormalized(raw: string, closing: nat)
    requires closing < |Breaks(raw)|
    ensures var body := Unlines(Breaks(raw)[closing + 1..]); NormalizeNewlines(body) == body
  {
    NormalizedLines(raw);
    NormalizedIsStable(raw);
    LinesHaveNoCr(NormalizeNewlines(raw));
    UnlinesHasNoCr(Breaks(raw)[closing + 1..]);
    NothingToNormalize(Unlines(Breaks(raw)[closing + 1..]));
  }

  /* ----- what the fields make ----- */

  function TextOf(f: map<string, Yaml>, field: string): Option<string> {
    if field in f && f[field].Text? then Some(f[field].text) else None
  }

  /** Metadata holds every entry but the tags, and the tags are those of their own entry. */
  ghost predicate MakesMetadata(codec: Codec, f: map<string, Yaml>, metadata: map<string, string>, tags: seq<string>) {
    if "metadata" in f && f["metadata"].Mapping? then
      var entries := f["metadata"].entries;
      && (forall k :: k in metadata <==> k in entries && k != TagsKey)
      && (forall k :: k in metadata && k in entries ==> Some(metadata[k]) == TextOf(entries, k))
      && (if TagsKey in entries && entries[TagsKey].Text? then
            var loaded := codec.loadJson(entries[TagsKey].text);
            loaded.Some? && loaded.value.Strings? && forall t :: t in tags <==> t in loaded.value.items
          else tags == [])
    else metadata == map[] && tags == []
  }

  /** The content holds what the fields say. */
  ghost predicate Makes(codec: Codec, f: map<string, Yaml>, body: string, document: Document) {
    var c := document.content;
    && Some(document.name) == TextOf(f, "name") && Some(c.description) == TextOf(f, "description")
    && c.license == TextOf(f, "license") && c.compatibility == TextOf(f, "compatibility") && c.procedure == body
    && c.declaredTools ==
       (if TextOf(f, "allowed-tools").Some? then Words(codec.isSpace, TextOf(f, "allowed-tools").value) else [])
    && StrictlySorted(c.tags) && MakesMetadata(codec, f, c.metadata, c.tags)
  }

  lemma MetadataMakes(codec: Codec, f: map<string, Yaml>)
    requires MetadataOf(f).Ok? && ExtractTags(codec, MetadataOf(f).value).Ok?
    ensures var tagged := ExtractTags(codec, MetadataOf(f).value).value;
            MakesMetadata(codec, f, tagged.metadata, tagged.tags)
  {
  }

  lemma CanonicalTagsMake(codec: Codec, f: map<string, Yaml>, metadata: map<string, string>, tags: seq<string>)
    requires MakesMetadata(codec, f, metadata, tags)
    ensures MakesMetadata(codec, f, metadata, CanonicalTags(tags)) && StrictlySorted(CanonicalTags(tags))
  {
    CanonicalTagsAre(tags);
    NoTags();
  }

  lemma MetadataIs(codec: Codec, f: map<string, Yaml>)
    ensures var metadata := MetadataOf(f);
            MetadataAccepted(codec, f) <==>
              && metadata.Ok? && ExtractTags(codec, metadata.value).Ok?
              && "" !in ExtractTags(codec, metadata.value).value.tags
  {
  }

  lemma FieldsAre(codec: Codec, f: map<string, Yaml>, body: string)
    requires NormalizeNewlines(body) == body && forall k :: k in f ==> AllowedField(k)
    ensures ParseFields(codec, f, body).Ok? <==> FieldsAccepted(codec, f) && BodyAccepted(codec, body)
  {
    MetadataIs(codec, f);
    var tools := OptionalString(f, "allowed-tools");
    if tools.Ok? && tools.value.Some? { WordsAreWords(codec.isSpace, tools.value.value); }
  }

  lemma FieldsMake(codec: Codec, f: map<string, Yaml>, body: string)
    requires NormalizeNewlines(body) == body && ParseFields(codec, f, body).Ok?
    ensures Makes(codec, f, body, ParseFields(codec, f, body).value)
  {
    var tagged := ExtractTags(codec, MetadataOf(f).value).value;
    MetadataMakes(codec, f);
    CanonicalTagsMake(codec, f, tagged.metadata, tagged.tags);
  }

  lemma NoTags()
    ensures CanonicalTags([]) == []
  {
    StrictlySortedIsCanonical([]);
  }

  /**
   An import is accepted exactly if its lines, however broken, hold frontmatter that loads as a mapping of the known
   fields with acceptable values, and a body that is not too long and not all whitespace.
  */
  lemma ImportIsAccepted(codec: Codec, raw: string)
    ensures var lines := Breaks(raw);
            Parse(codec, raw).Ok? <==>
              exists closing :: IsClosing(lines, closing)
                && PartsAccepted(codec, Unlines(lines[1..closing]), Unlines(lines[closing + 1..]))
  {
    var lines := Breaks(raw);
    SplitIs(raw);
    forall closing | IsClosing(lines, closing)
      ensures Parse(codec, raw).Ok? <==>
                PartsAccepted(codec, Unlines(lines[1..closing]), Unlines(lines[closing + 1..]))
    {
      BodyIsNormalized(raw, closing);
      PartsAre(codec, raw, Unlines(lines[1..closing]), Unlines(lines[closing + 1..]));
    }
  }

  lemma PartsAre(codec: Codec, raw: string, yaml: string, body: string)
    requires SplitFrontmatter(NormalizeNewlines(raw)) == Ok(Parts(yaml, body)) && NormalizeNewlines(body) == body
    ensures Parse(codec, raw).Ok? <==> PartsAccepted(codec, yaml, body)
  {
    var f := LoadFrontmatter(codec, yaml);
    if f.Ok? { FieldsAre(codec, f.value, body); }
  }

  /** What an accepted import makes: name and content say what the fields and the body say. */
  lemma ImportMakes(codec: Codec, raw: string, closing: nat)
    requires IsClosing(Breaks(raw), closing) && Parse(codec, raw).Ok?
    ensures var lines := Breaks(raw); var loaded := codec.loadYaml(Unlines(lines[1..closing]));
            && loaded.Some? && loaded.value.Mapping?
            && Makes(codec, loaded.value.entries, Unlines(lines[closing + 1..]), Parse(codec, raw).value)
  {
    SplitIs(raw);
    BodyIsNormalized(raw, closing);
    var lines := Breaks(raw);
    FieldsMake(codec, LoadFrontmatter(codec, Unlines(lines[1..closing])).value, Unlines(lines[closing + 1..]));
  }
}
