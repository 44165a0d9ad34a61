/**
 Standalone SKILL.md: the printer, the parser, and the content they share. YAML and
 JSON are functions that undo each other on what the printer writes; whitespace is any
 class of characters that has the space in it.
*/
module SkillMarkdown {
  import opened Wrappers
  import opened Ordering

  const Delimiter := "---"
  const TagsKey := "sofias-memory.tags"
  const DescriptionMaxLength := 1024
  const CompatibilityMaxLength := 500
  const ProcedureMaxLength := 65536
  const NameMaxLength := 64

  /* ----- values ----- */

  datatype Content = Content(
    description: string, procedure: string, license: Option<string>, compatibility: Option<string>,
    metadata: map<string, string>, tags: seq<string>, declaredTools: seq<string>)

  /** What YAML loads: a mapping may also have keys that are not strings. */
  datatype Yaml = Text(text: string) | Null | Mapping(entries: map<string, Yaml>, otherKeys: bool) | Other(repr: string)

  /** What JSON loads: an array of strings, or anything else. */
  datatype Json = Strings(items: seq<string>) | OtherJson

  datatype Error =
    | NoOpening | NoClosing | BadYaml | NotAMapping | UnknownField | NotAString(field: string) | BadMetadata | BadTags
    | BadName | BadDescription | BadCompatibility | EmptyTag | EmptyTool | BadProcedure

  datatype Outcome<T> = Ok(value: T) | Rejected(error: Error)

  datatype Document = Document(name: string, content: Content)

  /** The libraries the format is built on. */
  datatype Codec = Codec(
    loadYaml: string -> Option<Yaml>, dumpYaml: Yaml -> string,
    loadJson: string -> Option<Json>, dumpJson: seq<string> -> string,
    isSpace: char -> bool)

  /* ----- lines ----- */

  /** text.split("\n") */
  function Lines(s: string): (lines: seq<string>)
    ensures |lines| > 0
  {
    if s == "" then [""]
    else if s[0] == '\n' then [""] + Lines(s[1..])
    else
      var rest := Lines(s[1..]);
      [[s[0]] + rest[0]] + rest[1..]
  }

  /** "\n".join(lines) */
  function Unlines(lines: seq<string>): string {
    if lines == [] then "" else if |lines| == 1 then lines[0] else lines[0] + "\n" + Unlines(lines[1..])
  }

  lemma {:induction false} UnlinesOfLines(s: string)
    ensures Unlines(Lines(s)) == s
  {
    if s != "" {
      var rest := Lines(s[1..]);
      UnlinesOfLines(s[1..]);
      if s[0] == '\n' {
        assert Lines(s)[1..] == rest;
        assert s == "\n" + s[1..];
      } else {
        assert s == [s[0]] + s[1..];
        if |rest| > 1 { assert Lines(s)[1..] == rest[1..]; }
      }
    }
  }

  lemma {:induction false} LinesOfConcat(a: string, b: string)
    ensures Lines(a + "\n" + b) == Lines(a) + Lines(b)
  {
    var s := a + "\n" + b;
    if a == "" {
      assert s[1..] == b;
    } else {
      assert s[1..] == a[1..] + "\n" + b;
      LinesOfConcat(a[1..], b);
    }
  }

  lemma {:induction false} LinesOfOne(s: string)
    requires '\n' !in s
    ensures Lines(s) == [s]
  {
    if s != "" {
      LinesOfOne(s[1..]);
      assert s == [s[0]] + s[1..];
    }
  }

  /* ----- newlines ----- */

  /** value.replace("\r\n", "\n") */
  function ReplaceCrLf(s: string): string {
    if |s| < 2 then s
    else if s[0] == '\r' && s[1] == '\n' then "\n" + ReplaceCrLf(s[2..])
    else [s[0]] + ReplaceCrLf(s[1..])
  }

  /** value.replace("\r", "\n") */
  function ReplaceCr(s: string): string {
    if s == "" then "" else [if s[0] == '\r' then '\n' else s[0]] + ReplaceCr(s[1..])
  }

  function NormalizeNewlines(s: string): string {
    ReplaceCr(ReplaceCrLf(s))
  }

  lemma {:induction false} ReplaceCrLeavesNone(s: string)
    ensures '\r' !in ReplaceCr(s)
  {
    if s != "" { ReplaceCrLeavesNone(s[1..]); }
  }

  lemma {:induction false} NothingToNormalize(s: string)
    requires '\r' !in s
    ensures ReplaceCrLf(s) == s && ReplaceCr(s) == s
  {
    if s != "" {
      NothingToNormalize(s[1..]);
      assert s == [s[0]] + s[1..];
    }
  }

  lemma NormalizedIsStable(s: string)
    ensures '\r' !in NormalizeNewlines(s) && NormalizeNewlines(NormalizeNewlines(s)) == NormalizeNewlines(s)
  {
    ReplaceCrLeavesNone(ReplaceCrLf(s));
    NothingToNormalize(NormalizeNewlines(s));
  }

  /* ----- strings in order ----- */

  predicate Less(a: string, b: string) {
    if b == "" then false
    else if a == "" then true
    else a[0] < b[0] || (a[0] == b[0] && Less(a[1..], b[1..]))
  }

  lemma {:induction false} LessTotal(a: string, b: string)
    ensures (Less(a, b) || Less(b, a) || a == b) && !(Less(a, b) && Less(b, a)) && !Less(a, a)
  {
    if a != "" && b != "" {
      LessTotal(a[1..], b[1..]);
      LessTotal(a[1..], a[1..]);
      if a[0] == b[0] && a[1..] == b[1..] {
        assert a == [a[0]] + a[1..] && b == [b[0]] + b[1..];
      }
    } else if a != "" {
      LessTotal(a[1..], a[1..]);
    }
  }

  lemma {:induction false} LessTransitive(a: string, b: string, c: string)
    requires Less(a, b) && Less(b, c)
    ensures Less(a, c)
  {
    if a != "" && a[0] == b[0] && b[0] == c[0] {
      LessTransitive(a[1..], b[1..], c[1..]);
    }
  }

  function Insert(x: string, sorted: seq<string>): seq<string> {
    if sorted == [] || !Less(sorted[0], x) then [x] + sorted else [sorted[0]] + Insert(x, sorted[1..])
  }

  /** sorted(xs) */
  function SortStrings(xs: seq<string>): seq<string> {
    if xs == [] then [] else Insert(xs[0], SortStrings(xs[1..]))
  }

  ghost predicate StrictlySorted(xs: seq<string>) {
    forall i, j :: 0 <= i < j < |xs| ==> Less(xs[i], xs[j])
  }

  lemma {:induction false} InsertMembers(x: string, sorted: seq<string>)
    ensures multiset(Insert(x, sorted)) == multiset(sorted) + multiset{x}
  {
    if sorted == [] || !Less(sorted[0], x) {
    } else {
      InsertMembers(x, sorted[1..]);
      assert sorted == [sorted[0]] + sorted[1..];
    }
  }

  lemma {:induction false} SortMembers(xs: seq<string>)
    ensures multiset(SortStrings(xs)) == multiset(xs)
  {
    if xs != [] {
      SortMembers(xs[1..]);
      InsertMembers(xs[0], SortStrings(xs[1..]));
      assert xs == [xs[0]] + xs[1..];
    }
  }

  lemma SortHasSame(xs: seq<string>, x: string)
    ensures x in SortStrings(xs) <==> x in xs
  {
    SortMembers(xs);
    assert x in SortStrings(xs) <==> x in multiset(SortStrings(xs));
    assert x in xs <==> x in multiset(xs);
  }

  lemma {:induction false} InsertKeepsSorted(x: string, sorted: seq<string>)
    requires StrictlySorted(sorted) && x !in sorted
    ensures StrictlySorted(Insert(x, sorted))
  {
    if sorted == [] || !Less(sorted[0], x) {
      forall j | 0 <= j < |sorted| ensures Less(x, sorted[j]) {
        LessTotal(x, sorted[0]);
        assert x != sorted[0];
        if j > 0 { LessTransitive(x, sorted[0], sorted[j]); }
      }
    } else {
      var rest := Insert(x, sorted[1..]);
      InsertKeepsSorted(x, sorted[1..]);
      InsertMembers(x, sorted[1..]);
      forall j | 0 <= j < |rest| ensures Less(sorted[0], rest[j]) {
        assert rest[j] in multiset(rest);
        assert rest[j] == x || rest[j] in sorted[1..];
      }
    }
  }

  lemma {:induction false} SortIsSorted(xs: seq<string>)
    requires NoRepeats(xs)
    ensures StrictlySorted(SortStrings(xs))
  {
    if xs != [] {
      SortIsSorted(xs[1..]);
      SortHasSame(xs[1..], xs[0]);
      InsertKeepsSorted(xs[0], SortStrings(xs[1..]));
    }
  }

  lemma {:induction false} SortedStays(xs: seq<string>)
    requires StrictlySorted(xs)
    ensures SortStrings(xs) == xs
  {
    if xs != [] {
      SortedStays(xs[1..]);
      assert xs == [xs[0]] + xs[1..];
      if |xs| > 1 { LessTotal(xs[0], xs[1]); }
    }
  }

  lemma {:induction false} DistinctStays(xs: seq<string>, n: nat)
    requires StrictlySorted(xs) && n <= |xs|
    ensures Distinct(xs, n) == xs[..n]
  {
    if n > 0 {
      DistinctStays(xs, n - 1);
      forall i | 0 <= i < n - 1 ensures xs[i] != xs[n - 1] {
        LessTotal(xs[i], xs[n - 1]);
      }
      assert xs[..n] == xs[..n - 1] + [xs[n - 1]];
    }
  }

  /* ----- words ----- */

  function WordLength(isSpace: char -> bool, s: string): (n: nat)
    ensures n <= |s|
    ensures forall i :: 0 <= i < n ==> !isSpace(s[i])
  {
    if s == "" || isSpace(s[0]) then 0 else 1 + WordLength(isSpace, s[1..])
  }

  /** value.split() */
  function Words(isSpace: char -> bool, s: string): seq<string>
    decreases |s|
  {
    if s == "" then []
    else if isSpace(s[0]) then Words(isSpace, s[1..])
    else
      var n := WordLength(isSpace, s);
      [s[..n]] + Words(isSpace, s[n..])
  }

  /** " ".join(words) */
  function JoinWords(words: seq<string>): string {
    if words == [] then "" else if |words| == 1 then words[0] else words[0] + " " + JoinWords(words[1..])
  }

  predicate IsWord(isSpace: char -> bool, w: string) {
    w != "" && forall i :: 0 <= i < |w| ==> !isSpace(w[i])
  }

  lemma {:induction false} WordsAreWords(isSpace: char -> bool, s: string)
    ensures forall w :: w in Words(isSpace, s) ==> IsWord(isSpace, w)
    decreases |s|
  {
    if s != "" {
      if isSpace(s[0]) {
        WordsAreWords(isSpace, s[1..]);
      } else {
        WordsAreWords(isSpace, s[WordLength(isSpace, s)..]);
      }
    }
  }

  lemma {:induction false} WordLengthOf(isSpace: char -> bool, w: string, rest: string)
    requires forall i :: 0 <= i < |w| ==> !isSpace(w[i])
    requires rest == "" || isSpace(rest[0])
    ensures WordLength(isSpace, w + rest) == |w|
  {
    if w == "" {
      assert w + rest == rest;
    } else {
      assert (w + rest)[1..] == w[1..] + rest;
      WordLengthOf(isSpace, w[1..], rest);
    }
  }

  lemma {:induction false} WordsOfJoin(isSpace: char -> bool, words: seq<string>)
    requires isSpace(' ') && forall w :: w in words ==> IsWord(isSpace, w)
    ensures Words(isSpace, JoinWords(words)) == words
  {
    if words != [] {
      var w, tail := words[0], words[1..];
      assert words == [w] + tail && w in words;
      var rest := if tail == [] then "" else " " + JoinWords(tail);
      var s := JoinWords(words);
      assert s == w + rest;
      WordLengthOf(isSpace, w, rest);
      assert s[0] == w[0] && s[..|w|] == w && s[|w|..] == rest;
      if tail != [] {
        WordsOfJoin(isSpace, tail);
        assert rest[1..] == JoinWords(tail);
      }
    }
  }

  /** Splitting the joined list gives it back exactly when no entry has whitespace in it. */
  lemma SplitUndoesJoin(isSpace: char -> bool, words: seq<string>)
    requires isSpace(' ') && forall w :: w in words ==> w != ""
    ensures Words(isSpace, JoinWords(words)) == words <==> (forall w :: w in words ==> IsWord(isSpace, w))
  {
    if forall w :: w in words ==> IsWord(isSpace, w) {
      WordsOfJoin(isSpace, words);
    } else {
      WordsAreWords(isSpace, JoinWords(words));
    }
  }

  /* ----- validators and canonical forms ----- */

  predicate NameChar(c: char) {
    'a' <= c <= 'z' || '0' <= c <= '9'
  }

  predicate DoubledHyphen(name: string, i: nat)
    requires i < |name|
  {
    i + 1 < |name| && name[i] == '-' && name[i + 1] == '-'
  }

  /** [a-z0-9]+(-[a-z0-9]+)*, matched in full and at most 64 characters long. */
  predicate ValidName(name: string) {
    && 1 <= |name| <= NameMaxLength
    && (forall i :: 0 <= i < |name| ==> NameChar(name[i]) || name[i] == '-')
    && name[0] != '-' && name[|name| - 1] != '-'
    && (forall i :: 0 <= i < |name| ==> !DoubledHyphen(name, i))
  }

  predicate ValidDescription(description: string) {
    1 <= |description| <= DescriptionMaxLength
  }

  predicate ValidCompatibility(compatibility: Option<string>) {
    compatibility.Some? ==> 1 <= |compatibility.value| <= CompatibilityMaxLength
  }

  /** A procedure once normalized: not too long, and not all whitespace. */
  predicate ValidProcedure(isSpace: char -> bool, procedure: string) {
    |procedure| <= ProcedureMaxLength && exists i :: 0 <= i < |procedure| && !isSpace(procedure[i])
  }

  /** canonicalize_tags: sorted(set(value)) */
  function CanonicalTags(tags: seq<string>): seq<string> {
    SortStrings(Distinct(tags, |tags|))
  }

  /** Canonical tags are strictly increasing, hold the same tags, and are left alone the next time. */
  lemma CanonicalTagsAre(tags: seq<string>)
    ensures var canonical := CanonicalTags(tags);
            && StrictlySorted(canonical) && CanonicalTags(canonical) == canonical
            && forall t :: t in canonical <==> t in tags
  {
    var kept := Distinct(tags, |tags|);
    DistinctHasNoRepeats(tags, |tags|);
    SortIsSorted(kept);
    assert tags[..|tags|] == tags;
    forall t ensures t in SortStrings(kept) <==> t in tags {
      SortHasSame(kept, t);
    }
    StrictlySortedIsCanonical(SortStrings(kept));
  }

  lemma StrictlySortedIsCanonical(tags: seq<string>)
    requires StrictlySorted(tags)
    ensures CanonicalTags(tags) == tags
  {
    DistinctStays(tags, |tags|);
    assert tags[..|tags|] == tags;
    SortedStays(tags);
  }

  /** Content the structured API or an import may have stored. */
  ghost predicate ValidContent(isSpace: char -> bool, c: Content) {
    && ValidDescription(c.description) && ValidCompatibility(c.compatibility)
    && '\r' !in c.procedure && ValidProcedure(isSpace, c.procedure)
    && TagsKey !in c.metadata
    && StrictlySorted(c.tags) && "" !in c.tags && "" !in c.declaredTools
  }

  /** The object whose JSON is hashed: declared tools are sorted in a copy. */
  datatype Canonical = Canonical(name: string, content: Content)

  function CanonicalObject(name: string, c: Content): Canonical {
    Canonical(name, c.(declaredTools := SortStrings(c.declaredTools)))
  }

  /* ----- printing ----- */

  /** _synthesize_export_metadata */
  function ExportMetadata(codec: Codec, metadata: map<string, string>, tags: seq<string>): map<string, string> {
    if tags == [] then metadata else metadata[TagsKey := codec.dumpJson(tags)]
  }

  function Texts(m: map<string, string>): map<string, Yaml> {
    map k | k in m :: Text(m[k])
  }

  /** The frontmatter mapping; empty parts are left out. */
  function Frontmatter(codec: Codec, name: string, c: Content): map<string, Yaml> {
    var f0 := map["name" := Text(name), "description" := Text(c.description)];
    var f1 := if c.license.None? then f0 else f0["license" := Text(c.license.value)];
    var f2 := if c.compatibility.None? then f1 else f1["compatibility" := Text(c.compatibility.value)];
    var metadata := ExportMetadata(codec, c.metadata, c.tags);
    var f3 := if metadata == map[] then f2 else f2["metadata" := Mapping(Texts(metadata), false)];
    if c.declaredTools == [] then f3 else f3["allowed-tools" := Text(JoinWords(c.declaredTools))]
  }

  function Serialize(codec: Codec, name: string, c: Content): string {
    Delimiter + "\n" + codec.dumpYaml(Mapping(Frontmatter(codec, name, c), false)) + Delimiter + "\n" + c.procedure
  }

  /* ----- parsing ----- */

  /** The first delimiter line from the `i`th on, or |lines|. */
  function ClosingLine(lines: seq<string>, i: nat): (closing: nat)
    requires i <= |lines|
    ensures i <= closing <= |lines|
    ensures forall j :: i <= j < closing ==> lines[j] != Delimiter
    ensures closing < |lines| ==> lines[closing] == Delimiter
    decreases |lines| - i
  {
    if i == |lines| || lines[i] == Delimiter then i else ClosingLine(lines, i + 1)
  }

  datatype Parts = Parts(yaml: string, body: string)

  /** _split_frontmatter */
  function SplitFrontmatter(normalized: string): Outcome<Parts> {
    var lines := Lines(normalized);
    if lines[0] != Delimiter then Rejected(NoOpening)
    else
      var closing := ClosingLine(lines, 1);
      if closing == |lines| then Rejected(NoClosing)
      else Ok(Parts(Unlines(lines[1..closing]), Unlines(lines[closing + 1..])))
  }

  predicate AllowedField(field: string) {
    field == "name" || field == "description" || field == "license" || field == "compatibility"
    || field == "metadata" || field == "allowed-tools"
  }

  /** _load_frontmatter_mapping */
  function LoadFrontmatter(codec: Codec, yaml: string): Outcome<map<string, Yaml>> {
    match codec.loadYaml(yaml)
    case None => Rejected(BadYaml)
    case Some(Mapping(entries, otherKeys)) =>
      if otherKeys || exists k :: k in entries && !AllowedField(k) then Rejected(UnknownField) else Ok(entries)
    case Some(_) => Rejected(NotAMapping)
  }

  function RequireString(f: map<string, Yaml>, field: string): Outcome<string> {
    if field in f && f[field].Text? then Ok(f[field].text) else Rejected(NotAString(field))
  }

  function OptionalString(f: map<string, Yaml>, field: string): Outcome<Option<string>> {
    if field !in f || f[field].Null? then Ok(None)
    else if f[field].Text? then Ok(Some(f[field].text))
    else Rejected(NotAString(field))
  }

  /** _extract_metadata_mapping */
  function MetadataOf(f: map<string, Yaml>): Outcome<map<string, string>> {
    if "metadata" !in f || f["metadata"].Null? then Ok(map[])
    else if !f["metadata"].Mapping? || f["metadata"].otherKeys then Rejected(BadMetadata)
    else
      var entries := f["metadata"].entries;
      if exists k :: k in entries && !entries[k].Text? then Rejected(BadMetadata)
      else Ok(map k | k in entries :: entries[k].text)
  }

  datatype Tagged = Tagged(tags: seq<string>, metadata: map<string, string>)

  /** _extract_tags: the reserved key is consumed and removed. */
  function ExtractTags(codec: Codec, metadata: map<string, string>): Outcome<Tagged> {
    if TagsKey !in metadata then Ok(Tagged([], metadata))
    else
      match codec.loadJson(metadata[TagsKey])
      case Some(Strings(items)) => Ok(Tagged(items, metadata - {TagsKey}))
      case _ => Rejected(BadTags)
  }

  /** _tokenize_allowed_tools */
  function ToolsOf(codec: Codec, value: Option<string>): seq<string> {
    if value.None? then [] else Words(codec.isSpace, value.value)
  }

  /** The checks on loaded fields, in order, and the content they make. */
  function Validated(
      codec: Codec, f: map<string, Yaml>, tagged: Tagged, tools: seq<string>, body: string): Outcome<Document> {
    var name := RequireString(f, "name");
    if name.Rejected? then Rejected(name.error)
    else if !ValidName(name.value) then Rejected(BadName)
    else
      var description := RequireString(f, "description");
      if description.Rejected? then Rejected(description.error)
      else if !ValidDescription(description.value) then Rejected(BadDescription)
      else
        var license := OptionalString(f, "license");
        if license.Rejected? then Rejected(license.error)
        else
          var compatibility := OptionalString(f, "compatibility");
          if compatibility.Rejected? then Rejected(compatibility.error)
          else if !ValidCompatibility(compatibility.value) then Rejected(BadCompatibility)
          else if "" in tagged.tags then Rejected(EmptyTag)
          else if "" in tools then Rejected(EmptyTool)
          else
            var procedure := NormalizeNewlines(body);
            if !ValidProcedure(codec.isSpace, procedure) then Rejected(BadProcedure)
            else Ok(Document(name.value, Content(description.value, procedure, license.value, compatibility.value,
                                                 tagged.metadata, CanonicalTags(tagged.tags), tools)))
  }

  function ParseFields(codec: Codec, f: map<string, Yaml>, body: string): Outcome<Document> {
    var metadata := MetadataOf(f);
    if metadata.Rejected? then Rejected(metadata.error)
    else
      var tagged := ExtractTags(codec, metadata.value);
      if tagged.Rejected? then Rejected(tagged.error)
      else
        var tools := OptionalString(f, "allowed-tools");
        if tools.Rejected? then Rejected(tools.error)
        else Validated(codec, f, tagged.value, ToolsOf(codec, tools.value), body)
  }

  /** parse_skill_markdown */
  function Parse(codec: Codec, raw: string): Outcome<Document> {
    var parts := SplitFrontmatter(NormalizeNewlines(raw));
    if parts.Rejected? then Rejected(parts.error)
    else
      var f := LoadFrontmatter(codec, parts.value.yaml);
      if f.Rejected? then Rejected(f.error) else ParseFields(codec, f.value, parts.value.body)
  }
}
