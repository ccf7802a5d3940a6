/** Span tags: a linked list that behaves as a map, its JSON text, and the splice that
    merges it with the system tags of the span. */
module Tags {
  import opened Seqs
  import opened Json
  import opened JsonRoundTrip
  import opened JsonFragments
  import opened JsonSplice
  import opened Buffer
  import opened ObjectWriter

  datatype Tag = Tag(key: string, value: string)

  // ----- the list as a map -----

  ghost predicate Distinct(tags: seq<Tag>) {
    forall i, j :: 0 <= i < j < |tags| ==> tags[i].key != tags[j].key
  }

  ghost predicate Has(tags: seq<Tag>, key: string) {
    exists i :: 0 <= i < |tags| && tags[i].key == key
  }

  function ToMap(tags: seq<Tag>): map<string, string> {
    if tags == [] then map[] else ToMap(tags[1..])[tags[0].key := tags[0].value]
  }

  /** A replaced value at any position updates the map. */
  lemma {:induction false} ReplaceIsUpdate(tags: seq<Tag>, i: nat, value: string)
    requires Distinct(tags) && i < |tags|
    ensures var tags' := tags[i := Tag(tags[i].key, value)];
            Distinct(tags') && ToMap(tags') == ToMap(tags)[tags[i].key := value]
  {
    var tags' := tags[i := Tag(tags[i].key, value)];
    if i == 0 {
      assert tags'[1..] == tags[1..];
    } else {
      ReplaceIsUpdate(tags[1..], i - 1, value);
      assert tags'[1..] == tags[1..][i - 1 := Tag(tags[i].key, value)];
    }
  }

  lemma {:induction false} PushIsUpdate(tags: seq<Tag>, tag: Tag)
    requires Distinct(tags) && !Has(tags, tag.key)
    ensures Distinct([tag] + tags) && ToMap([tag] + tags) == ToMap(tags)[tag.key := tag.value]
  {
    assert ([tag] + tags)[1..] == tags;
  }

  class SpanTag {
    const key: string
    var value: string
    var next: SpanTag?

    constructor (key: string, value: string, next: SpanTag?)
      ensures this.key == key && this.value == value && this.next == next
    {
      this.key, this.value, this.next := key, value, next;
    }
  }

  ghost function TagsOf(list: seq<SpanTag>): (r: seq<Tag>)
    reads list
    ensures |r| == |list|
    ensures forall i :: 0 <= i < |list| ==> r[i] == Tag(list[i].key, list[i].value)
  {
    if list == [] then [] else [Tag(list[0].key, list[0].value)] + TagsOf(list[1..])
  }

  ghost predicate TagChain(head: SpanTag?, list: seq<SpanTag>)
    reads list
  {
    && head == (if list == [] then null else list[0])
    && (forall i, j {:trigger list[i], list[j]} :: 0 <= i < j < |list| && j == i + 1 ==> list[i].next == list[j])
    && (list != [] ==> list[|list| - 1].next == null)
  }

  class SpanContext {
    var tags: SpanTag?
    ghost var list: seq<SpanTag>

    ghost predicate Valid()
      reads this, list
    {
      && TagChain(tags, list)
      && (forall i, j :: 0 <= i < j < |list| ==> list[i].key != list[j].key)
    }

    ghost function Contents(): seq<Tag>
      reads this, list
    {
      TagsOf(list)
    }

    constructor ()
      ensures Valid() && Contents() == []
    {
      tags, list := null, [];
    }

    /** Updates the tag with this key where it stands, or puts a new one in front. */
    method AddTag(key: string, value: string)
      requires Valid()
      modifies this, list
      ensures Valid() && Distinct(Contents())
      ensures ToMap(Contents()) == old(ToMap(Contents()))[key := value]
      ensures var old_ := old(Contents());
              if Has(old_, key) then
                |Contents()| == |old_| && forall i :: 0 <= i < |old_| ==>
                  Contents()[i] == if old_[i].key == key then Tag(key, value) else old_[i]
              else Contents() == [Tag(key, value)] + old_
    {
      hide TagsOf, ToMap;
      ghost var i := 0;
      var current := tags;
      while current != null && current.key != key
        invariant i <= |list| && current == if i < |list| then list[i] else null
        invariant forall j :: 0 <= j < i ==> list[j].key != key
        decreases |list| - i
      {
        current, i := current.next, i + 1;
      }
      if current != null {
        Replace(current, i, value);
      } else {
        PushFront(key, value);
      }
    }

    method Replace(tag: SpanTag, ghost i: nat, value: string)
      requires Valid() && i < |list| && list[i] == tag
      modifies tag`value
      ensures Valid() && Distinct(Contents())
      ensures Has(old(Contents()), tag.key)
      ensures Contents() == old(Contents())[i := Tag(tag.key, value)]
      ensures ToMap(Contents()) == old(ToMap(Contents()))[tag.key := value]
    {
      hide TagsOf, ToMap;
      ghost var before := Contents();
      ReplaceIsUpdate(before, i, value);
      assert before[i].key == tag.key;
      tag.value := value;
      assert Contents() == before[i := Tag(tag.key, value)];
    }

    method PushFront(key: string, value: string)
      requires Valid() && forall j :: 0 <= j < |list| ==> list[j].key != key
      modifies this
      ensures Valid() && Distinct(Contents())
      ensures !Has(old(Contents()), key)
      ensures Contents() == [Tag(key, value)] + old(Contents())
      ensures ToMap(Contents()) == old(ToMap(Contents()))[key := value]
    {
      hide TagsOf, ToMap;
      ghost var before := Contents();
      PushIsUpdate(before, Tag(key, value));
      var tag := new SpanTag(key, value, tags);
      tags := tag;
      list := [tag] + list;
      assert Contents() == [Tag(key, value)] + before;
    }
  }

  // ----- the text of a tag list -----

  function TagParts(tags: seq<Tag>): (r: seq<Part>)
    ensures |r| == |tags|
    ensures forall i :: 0 <= i < |tags| ==> r[i] == Part(tags[i].key, Quote(tags[i].value))
  {
    if tags == [] then [] else [Part(tags[0].key, Quote(tags[0].value))] + TagParts(tags[1..])
  }

  /** The text of a non-empty tag list; an empty list has none. */
  function TagsText(tags: seq<Tag>): string {
    if tags == [] then "" else "{" + JoinParts(TagParts(tags)) + "}"
  }

  /** One `"key":"value"` member, after a comma unless it is the first. */
  method AppendTag(buf: JsonBuffer, key: string, value: string, first: bool)
    requires buf.Valid()
    modifies buf, buf.data
    ensures buf.Valid() && (buf.data == old(buf.data) || fresh(buf.data))
    ensures buf.Contents() == old(buf.Contents()) + ((if first then "" else ",") + PartText(Part(key, Quote(value))))
  {
    hide Quote, JsonBuffer.Contents, JsonBuffer.Valid;
    ghost var start := buf.Contents();
    if !first {
      buf.Append(",");
    }
    ghost var front := buf.Contents();
    AppendQuoted(buf, key);
    buf.Append(":");
    AppendQuoted(buf, value);
    TagPieces(start, front, key, value, first);
  }

  lemma TagPieces(start: string, front: string, key: string, value: string, first: bool)
    requires front == if first then start else start + ","
    ensures front + Quote(key) + ":" + Quote(value) ==
              start + ((if first then "" else ",") + PartText(Part(key, Quote(value))))
  {
    hide Quote;
    var comma, a, b := if first then "" else ",", Quote(key), Quote(value);
    assert start + (comma + (a + ":" + b)) == start + comma + a + ":" + b;
  }

  /** What the loop has still to write after `n` tags. */
  function TagsRest(tags: seq<Tag>, n: nat): string
    requires n <= |tags|
  {
    (if n == 0 || n == |tags| then "" else ",") + JoinParts(TagParts(tags)[n..])
  }

  lemma TagsRestStep(before: string, tags: seq<Tag>, n: nat)
    requires n < |tags|
    ensures before + TagsRest(tags, n)
         == (before + ((if n == 0 then "" else ",") + PartText(Part(tags[n].key, Quote(tags[n].value))))) +
           TagsRest(tags, n + 1)
  {
    hide Quote, TagParts, PartText;
    var parts := TagParts(tags);
    assert parts[n..][0] == parts[n] && parts[n..][1..] == parts[n + 1..];
    var comma, head, rest := if n == 0 then "" else ",", PartText(parts[n]), TagsRest(tags, n + 1);
    assert JoinParts(parts[n..]) == head + rest;
    assert before + (comma + (head + rest)) == before + (comma + head) + rest;
  }

  lemma TagsRestNothing(before: string, tags: seq<Tag>)
    ensures before + TagsRest(tags, |tags|) == before
  {
    hide TagParts;
    assert TagParts(tags)[|tags|..] == [];
  }

  /** The JSON text of the tags, or nothing when there are none. */
  method SerializeTagsJson(span: SpanContext) returns (text: string)
    requires span.Valid()
    ensures text == TagsText(span.Contents())
  {
    hide TagsOf, JoinParts, TagParts;
    if span.tags == null {
      return "";
    }
    text := TagsInBraces(span);
    TagsTextIs(span.Contents());
  }

  method TagsInBraces(span: SpanContext) returns (text: string)
    requires span.Valid()
    ensures text == "{" + TagsRest(span.Contents(), 0) + "}"
  {
    hide TagsOf, TagsRest, SpanContext.Contents, SpanContext.Valid, JsonBuffer.Contents, JsonBuffer.Valid;
    ghost var all := TagsRest(span.Contents(), 0);
    var buf := new JsonBuffer();
    buf.Append("{");
    AppendTags(span, buf);
    buf.Append("}");
    text := Taken(buf);
    assert "" + "{" + all + "}" == "{" + all + "}";
  }

  lemma TagsTextIs(tags: seq<Tag>)
    requires tags != []
    ensures TagsText(tags) == "{" + TagsRest(tags, 0) + "}"
  {
    hide TagParts, JoinParts;
    assert TagParts(tags)[0..] == TagParts(tags);
    assert "" + JoinParts(TagParts(tags)) == JoinParts(TagParts(tags));
  }

  /** The bytes a buffer holds. */
  method Taken(buf: JsonBuffer) returns (text: string)
    requires buf.Valid()
    ensures text == buf.Contents()
  {
    text := if buf.data == null then "" else buf.data[..buf.len];
  }

  /** The loop over the list. */
  method AppendTags(span: SpanContext, buf: JsonBuffer)
    requires span.Valid() && buf.Valid()
    modifies buf, buf.data
    ensures span.Valid() && span.Contents() == old(span.Contents())
    ensures buf.Valid() && (buf.data == old(buf.data) || fresh(buf.data))
    ensures buf.Contents() == old(buf.Contents()) + TagsRest(span.Contents(), 0)
  {
    hide TagsOf, TagsRest, Quote, PartText, JsonBuffer.Contents, JsonBuffer.Valid;
    ghost var tags, i := span.Contents(), 0;
    ghost var total := buf.Contents() + TagsRest(tags, 0);
    var current, first := span.tags, true;
    while current != null
      invariant span.Valid() && span.Contents() == tags
      invariant i <= |span.list| && current == if i < |span.list| then span.list[i] else null
      invariant first == (i == 0)
      invariant buf.Valid() && (buf.data == old(buf.data) || fresh(buf.data))
      invariant buf.Contents() + TagsRest(tags, i) == total
      decreases |span.list| - i
    {
      TagsRestStep(buf.Contents(), tags, i);
      AppendTag(buf, current.key, current.value, first);
      current, first, i := current.next, false, i + 1;
    }
    TagsRestNothing(buf.Contents(), tags);
  }

  // ----- the splice -----

  /** What is left of the custom tags' text without its outer braces. */
  function Stripped(text: string): string {
    var s := if text != "" && text[0] == '{' then text[1..] else text;
    if s != "" && s[|s| - 1] == '}' then s[..|s| - 1] else s
  }

  datatype System = System(organization: string, project: string, cli: string, request: string, response: string,
        expand: bool)

  function OrganizationPart(s: System): Part { Part("organization_id", Quote(s.organization)) }

  function ProjectPart(s: System): Part { Part("project_id", Quote(s.project)) }

  function CliPart(s: System): Part { Part("cli", s.cli) }

  function RequestPart(s: System): Part { Part("http_request", if s.request != "" then s.request else "{}") }

  function ResponsePart(s: System): Part { Part("http_response", s.response) }

  function ExpandPart(s: System): Part { Part("expand_spans", if s.expand then "true" else "false") }

  function OwnerParts(s: System): seq<Part> {
    When(s.organization != "", OrganizationPart(s)) + When(s.project != "", ProjectPart(s))
  }

  function RequestParts(s: System): seq<Part> { When(s.cli != "", CliPart(s)) + [RequestPart(s)] }

  function ResponseParts(s: System): seq<Part> { When(s.response != "", ResponsePart(s)) + [ExpandPart(s)] }

  /** The system tags present, in the order they are written; absent texts are empty. */
  function SystemParts(s: System): seq<Part> { OwnerParts(s) + RequestParts(s) + ResponseParts(s) }

  /** The custom tags, their outer braces removed. */
  method SpliceCustomTags(w: Writer, tagsJson: string)
    requires w.Valid() && w.content == "" && w.parts == []
    modifies w, w.buf, w.buf.data
    ensures w.Valid() && w.content == Stripped(tagsJson) && w.parts == []
    ensures w.buf.data == old(w.buf.data) || fresh(w.buf.data)
  {
    hide Writer.Valid, JsonBuffer.Contents, JsonBuffer.Valid;
    var tagsContent := tagsJson;
    if |tagsContent| > 0 && tagsContent[0] == '{' {
      tagsContent := tagsContent[1..];
    }
    if |tagsContent| > 0 && tagsContent[|tagsContent| - 1] == '}' {
      tagsContent := tagsContent[..|tagsContent| - 1];
    }
    w.Splice(tagsContent);
  }

  method AppendOwnerTags(w: Writer, s: System)
    requires w.Valid()
    modifies w, w.buf, w.buf.data
    ensures w.Valid() && w.parts == old(w.parts) + OwnerParts(s) && w.content == old(w.content)
    ensures w.buf.data == old(w.buf.data) || fresh(w.buf.data)
  {
    hide Writer.Valid, JsonBuffer.Valid, JsonBuffer.Contents, Quote;
    w.AddQuotedIf(s.organization != "", "organization_id", s.organization);
    w.AddQuotedIf(s.project != "", "project_id", s.project);
  }

  method AppendRequestTags(w: Writer, s: System)
    requires w.Valid()
    modifies w, w.buf, w.buf.data
    ensures w.Valid() && w.parts == old(w.parts) + RequestParts(s) && w.content == old(w.content)
    ensures w.buf.data == old(w.buf.data) || fresh(w.buf.data)
  {
    hide Writer.Valid, JsonBuffer.Valid, JsonBuffer.Contents, CliPart, RequestPart;
    w.AddIf(s.cli != "", CliPart(s));
    w.Add(RequestPart(s));
  }

  method AppendResponseTags(w: Writer, s: System)
    requires w.Valid()
    modifies w, w.buf, w.buf.data
    ensures w.Valid() && w.parts == old(w.parts) + ResponseParts(s) && w.content == old(w.content)
    ensures w.buf.data == old(w.buf.data) || fresh(w.buf.data)
  {
    hide Writer.Valid, JsonBuffer.Valid, JsonBuffer.Contents, ResponsePart, ExpandPart;
    w.AddIf(s.response != "", ResponsePart(s));
    w.Add(ExpandPart(s));
  }

  method AppendSystemTags(w: Writer, s: System)
    requires w.Valid() && w.parts == []
    modifies w, w.buf, w.buf.data
    ensures w.Valid() && w.parts == SystemParts(s) && w.content == old(w.content)
    ensures w.buf.data == old(w.buf.data) || fresh(w.buf.data)
  {
    hide Writer.Valid, JsonBuffer.Valid, JsonBuffer.Contents, SystemParts, OwnerParts, RequestParts, ResponseParts;
    AppendOwnerTags(w, s);
    AppendRequestTags(w, s);
    AppendResponseTags(w, s);
    SystemPartsAre(s);
  }

  lemma SystemPartsAre(s: System)
    ensures SystemParts(s) == [] + OwnerParts(s) + RequestParts(s) + ResponseParts(s)
  {
    hide OwnerParts, RequestParts, ResponseParts;
    assert [] + OwnerParts(s) == OwnerParts(s);
  }

  /** The text of the whole `tags` object. */
  function SpanTags(tagsJson: string, s: System): string {
    "{" + Body(Stripped(tagsJson), SystemParts(s)) + "}"
  }

  /** Writes the whole `tags` object: the custom tags and then the system tags. */
  method AppendSpanTags(buf: JsonBuffer, tagsJson: string, s: System)
    requires buf.Valid()
    modifies buf, buf.data
    ensures buf.Valid() && (buf.data == old(buf.data) || fresh(buf.data))
    ensures buf.Contents() == old(buf.Contents()) + SpanTags(tagsJson, s)
  {
    hide SystemParts, Body, Stripped, JsonBuffer.Contents, JsonBuffer.Valid;
    ghost var start := buf.Contents();
    buf.Append("{");
    var w := new Writer(buf);
    SpliceCustomTags(w, tagsJson);
    AppendSystemTags(w, s);
    buf.Append("}");
    ghost var body := Body(Stripped(tagsJson), SystemParts(s));
    assert start + "{" + body + "}" == start + ("{" + body + "}");
  }

  // ----- what the spliced text is -----

  lemma StripBraces(inner: string)
    ensures Stripped("{" + inner + "}") == inner
  {
    var text := "{" + inner + "}";
    assert text[1..] == inner + "}";
    assert (inner + "}")[..|inner|] == inner;
  }

  lemma QuotedReads(s: string)
    ensures Decode(Quote(s)) == Some(Str(s))
  {
    hide Quote, Decode;
    DecodePrint(Str(s));
  }

  lemma {:induction false} TagPartsRead(tags: seq<Tag>)
    ensures AllRead(TagParts(tags))
    ensures forall i :: 0 <= i < |tags| ==> ReadMember(TagParts(tags)[i]) == Member(tags[i].key, Str(tags[i].value))
  {
    hide Quote, Decode, TagParts;
    forall i | 0 <= i < |tags|
      ensures Decode(TagParts(tags)[i].text) == Some(Str(tags[i].value))
    {
      QuotedReads(tags[i].value);
    }
  }

  /** The text of a tag list is one object with exactly its tags as string members. */
  lemma {:induction false} TagsTextIsObject(tags: seq<Tag>)
    requires tags != []
    ensures AllRead(TagParts(tags)) && Decode(TagsText(tags)) == Some(Obj(ReadAll(TagParts(tags))))
    ensures forall i :: 0 <= i < |tags| ==> ReadAll(TagParts(tags))[i] == Member(tags[i].key, Str(tags[i].value))
  {
    hide Decode, TagParts, JoinParts;
    TagPartsRead(tags);
    DecodeParts(TagParts(tags));
  }

  /** The fragments handed in by other components are absent or well-formed JSON. */
  predicate FragmentsOk(s: System) {
    (s.cli == "" || WellFormed(s.cli)) && (s.request == "" || WellFormed(s.request)) &&
      (s.response == "" || WellFormed(s.response))
  }

  lemma ConstantsRead()
    ensures Decode("{}") == Some(Obj([])) && Decode("true") == Some(Bool(true)) && Decode("false") == Some(Bool(false))
  {
    DecodePrint(Bool(true));
    DecodePrint(Bool(false));
    DecodePrint(Obj([]));
    assert Print(Obj([])) == "{" + "" + "}" == "{}";
  }

  /** `p` is read if it is there at all. */
  predicate ReadsIf(present: bool, p: Part) { present ==> WellFormed(p.text) }

  lemma EachPartReads(s: System)
    requires FragmentsOk(s)
    ensures WellFormed(OrganizationPart(s).text) && WellFormed(ProjectPart(s).text)
    ensures ReadsIf(s.cli != "", CliPart(s)) && ReadsIf(s.response != "", ResponsePart(s))
    ensures WellFormed(RequestPart(s).text) && WellFormed(ExpandPart(s).text)
  {
    hide Quote, Decode;
    ConstantsRead();
    QuotedReads(s.organization);
    QuotedReads(s.project);
  }

  lemma SystemPartsRead(s: System)
    requires FragmentsOk(s)
    ensures AllRead(SystemParts(s))
  {
    hide WellFormed, OrganizationPart, ProjectPart, CliPart, RequestPart, ResponsePart, ExpandPart, AllRead;
    EachPartReads(s);
    var a := WhenReads(s.organization != "", OrganizationPart(s));
    var b := WhenReads(s.project != "", ProjectPart(s));
    var c := WhenReads(s.cli != "", CliPart(s));
    var d := WhenReads(true, RequestPart(s));
    var e := WhenReads(s.response != "", ResponsePart(s));
    var f := WhenReads(true, ExpandPart(s));
    AllReadConcat(a, b);
    AllReadConcat(c, d);
    AllReadConcat(e, f);
    AllReadConcat(a + b, c + d);
    AllReadConcat(a + b + (c + d), e + f);
  }

  lemma WhenReads(present: bool, p: Part) returns (parts: seq<Part>)
    requires ReadsIf(present, p)
    ensures parts == When(present, p) && AllRead(parts)
  {
    hide WellFormed;
    parts := When(present, p);
  }

  /** The splice of the text of any tag list with the system tags decodes to one object:
      all custom members in list order, then all system members. */
  lemma {:induction false} SpliceIsObject(tags: seq<Tag>, s: System)
    requires FragmentsOk(s)
    ensures AllRead(TagParts(tags) + SystemParts(s))
    ensures Decode("{" + Body(Stripped(TagsText(tags)), SystemParts(s)) + "}") ==
              Some(Obj(ReadAll(TagParts(tags) + SystemParts(s))))
  {
    hide Decode, WellFormed, TagParts, SystemParts, JoinParts, Body, Stripped;
    TagPartsRead(tags);
    SystemPartsRead(s);
    AllReadConcat(TagParts(tags), SystemParts(s));
    StrippedTags(tags);
    BodyJoins(TagParts(tags), SystemParts(s));
    SystemNotEmpty(s);
    DecodeParts(TagParts(tags) + SystemParts(s));
  }

  lemma SystemNotEmpty(s: System)
    ensures SystemParts(s) != []
  {
    hide RequestPart, ExpandPart;
  }

  lemma AllReadConcat(a: seq<Part>, b: seq<Part>)
    requires AllRead(a) && AllRead(b)
    ensures AllRead(a + b)
  {
    hide WellFormed;
  }

  lemma {:induction false} StrippedTags(tags: seq<Tag>)
    ensures Stripped(TagsText(tags)) == JoinParts(TagParts(tags))
  {
    if tags == [] {
    } else {
      hide Stripped;
      StripBraces(JoinParts(TagParts(tags)));
    }
  }

  // ----- any object text -----

  /** The object texts that keep their meaning when their outer braces are cut off. */
  predicate Spliceable(t: string, members: seq<Member>) {
    t != "" && t[0] == '{' && t[|t| - 1] == '}' && (t == "{}" || members != [])
  }

  /** Content that is not empty is followed by a comma and the parts. */
  lemma {:induction false} BodyAfter(content: string, parts: seq<Part>)
    requires content != "" && parts != []
    ensures Body(content, parts) == content + ("," + JoinParts(parts))
    decreases |parts|
  {
    hide PartText;
    var front, last := parts[..|parts| - 1], parts[|parts| - 1];
    if front == [] {
      assert parts == [last];
    } else {
      BodyAfter(content, front);
      JoinSnoc(front, last);
      assert parts == front + [last];
      var a, b := JoinParts(front), PartText(last);
      assert (content + ("," + a)) + ("," + b) == content + ("," + (a + "," + b));
    }
  }

  /** An object text: white space, a brace, the rest of the object, white space. */
  lemma {:induction false} ObjectText(t: string, members: seq<Member>) returns (w: string, s: string)
    requires Decode(t) == Some(Obj(members))
    ensures t == w + ("{" + s) && SkipWs(w) == ""
    ensures ParseObject(s).Ok? && ParseObject(s).value == Obj(members) && SkipWs(ParseObject(s).rest) == ""
  {
    hide ParseValue, ParseObject, SkipWs;
    Decoded(t);
    hide Decode;
    ObjectHead(t);
    w := SkippedWs(t);
    s := SkipWs(t)[1..];
    assert SkipWs(t) == "{" + s;
  }

  lemma {:induction false} Decoded(t: string)
    requires Decode(t).Some?
    ensures ParseValue(t).Ok? && ParseValue(t).value == Decode(t).value && SkipWs(ParseValue(t).rest) == ""
  {
    hide ParseValue, SkipWs;
  }

  /** Only a brace begins an object. */
  lemma {:induction false} ObjectHead(t: string)
    requires ParseValue(t).Ok? && ParseValue(t).value.Obj?
    ensures SkipWs(t) != "" && SkipWs(t)[0] == '{' && ParseValue(t) == ParseObject(SkipWs(t)[1..])
  {
    hide ParseArray, ParseObject, ParseString, ScanNumber, SkipWs;
    if Starts(SkipWs(t), '[') {
      ArrayIsArray(SkipWs(t)[1..]);
    }
  }

  lemma {:induction false} ArrayIsArray(s: string)
    ensures ParseArray(s).Ok? ==> ParseArray(s).value.Arr?
  {
    hide ParseItems;
  }

  /** What stands in an object text after its brace. */
  lemma {:induction false} ObjectRest(s: string, members: seq<Member>)
    requires ParseObject(s).Ok? && ParseObject(s).value == Obj(members)
    ensures members != [] ==> ParseMembers(s) == Ok(members, ParseObject(s).rest)
    ensures members == [] ==> SkipWs(s) == "}" + ParseObject(s).rest
  {
    hide ParseMembers;
    var t := SkipWs(s);
    if Starts(t, '}') {
      assert t == "}" + t[1..];
    } else {
      var _, _, _ := MembersShape(s);
    }
  }

  /** Blank text ends in white space. */
  lemma {:induction false} BlankEnds(r: string)
    requires SkipWs(r) == "" && r != ""
    ensures IsWs(r[|r| - 1])
  {
    if |r| > 1 {
      BlankEnds(r[1..]);
    }
  }

  lemma {:induction false} BlankStarts(r: string)
    requires SkipWs(r) == "" && r != ""
    ensures IsWs(r[0])
  {
  }

  /** Text whose first visible character is neither a quote nor a closing brace is no object. */
  lemma {:induction false} NoObject(w: string, a: char, z: string)
    requires SkipWs(w) == "" && !IsWs(a) && a != '"' && a != '}'
    ensures !WellFormed("{" + (w + ([a] + z)))
  {
    var u := w + ([a] + z);
    AfterWs(w, a, z);
    assert ("{" + u)[1..] == u;
    assert ParseMember(u).Fail?;
    assert ParseObject(u).Fail?;
  }

  function CutBrace(s: string): string { if s != "" && s[|s| - 1] == '}' then s[..|s| - 1] else s }

  lemma {:induction false} StrippedBehindWs(w: string, s: string)
    requires w != "" && IsWs(w[0]) && s != ""
    ensures Stripped(w + ("{" + s)) == w + ("{" + CutBrace(s))
  {
    var t := w + ("{" + s);
    assert t[0] == w[0] && t[|t| - 1] == s[|s| - 1];
    assert t[..|t| - 1] == w + ("{" + s[..|s| - 1]);
  }

  /** White space in front of the brace: the brace stays. */
  lemma {:induction false} LeadingBreaks(t: string, w: string, s: string, parts: seq<Part>)
    requires t == w + ("{" + s) && SkipWs(w) == "" && w != "" && s != "" && parts != []
    ensures !WellFormed("{" + Body(Stripped(t), parts) + "}")
  {
    hide Stripped, Body, WellFormed, JoinParts, CutBrace;
    BlankStarts(w);
    StrippedBehindWs(w, s);
    var content := w + ("{" + CutBrace(s));
    BodyAfter(content, parts);
    var more := "," + JoinParts(parts);
    NoObject(w, '{', CutBrace(s) + more + "}");
    assert "{" + (content + more) + "}" == "{" + (w + ("{" + (CutBrace(s) + more + "}")));
  }

  lemma {:induction false} StrippedOpen(s: string)
    requires s != "" && s[|s| - 1] != '}'
    ensures Stripped("{" + s) == s
  {
    assert ("{" + s)[1..] == s;
  }

  /** White space after the brace: the closing brace stays, and more text follows it. */
  lemma {:induction false} TrailingBreaks(t: string, s: string, r: string, parts: seq<Part>)
    requires t == "{" + s && ParseObject(s).Ok? && ParseObject(s).rest == r && SkipWs(r) == "" && r != "" && parts != []
    ensures !WellFormed("{" + Body(Stripped(t), parts) + "}")
    ensures t[|t| - 1] != '}'
  {
    hide ParseObject, ParseValue, SkipWs, StopsNumber, IsWs, Stripped, Body, JoinParts, WellFormed;
    var j := JoinParts(parts) + "}";
    Delimiter(r, ',', j);
    var c := ParseObjectSwap(s, r + ("," + j));
    BlankEnds(r);
    NotBrace(r[|r| - 1]);
    assert s[|s| - 1] == r[|r| - 1];
    StrippedOpen(s);
    BodyAfter(s, parts);
    ParseBrace(c + (r + ("," + j)), ParseObject(s).value, r + ("," + j));
    RestBreaks("{" + (c + (r + ("," + j))));
    TrailingText(c, r, JoinParts(parts));
  }

  lemma {:induction false} TrailingText(c: string, r: string, j: string)
    ensures "{" + ((c + r) + ("," + j)) + "}" == "{" + (c + (r + ("," + (j + "}"))))
  {
  }

  lemma {:induction false} NotBrace(c: char)
    requires IsWs(c)
    ensures c != '}'
  {
  }

  lemma {:induction false} RestBreaks(text: string)
    requires ParseValue(text).Ok? && SkipWs(ParseValue(text).rest) != ""
    ensures !WellFormed(text)
  {
    hide ParseValue;
  }

  /** White space between the braces: nothing stands in front of the comma. */
  lemma {:induction false} BlankBreaks(w: string, parts: seq<Part>)
    requires SkipWs(w) == "" && w != "" && parts != []
    ensures !WellFormed("{" + Body(w, parts) + "}")
  {
    BodyAfter(w, parts);
    NoObject(w, ',', JoinParts(parts) + "}");
    assert "{" + (w + ("," + JoinParts(parts))) + "}" == "{" + (w + ("," + (JoinParts(parts) + "}")));
  }

  /** Members continued by parts. */
  lemma {:induction false} ContinuedObject(s: string, members: seq<Member>, parts: seq<Part>)
    requires ParseMembers(s) == Ok(members, "") && parts != [] && AllRead(parts)
    ensures Stripped("{" + s) != "" && "{" + s == "{" + Stripped("{" + s) + "}"
    ensures Decode("{" + Body(Stripped("{" + s), parts) + "}") == Some(Obj(members + ReadAll(parts)))
  {
    hide ParseMembers, ParseValue, ParseObject, AllRead, Stripped, Body, JoinParts, ReadAll;
    ReadParts(parts, "");
    var v := JoinParts(parts) + ("}" + "");
    var u := MembersContinue(s, v);
    assert s == u + "}" && "{" + s == "{" + u + "}";
    StripBraces(u);
    BodyAfter(u, parts);
    ObjectStep(u + ("," + v));
    ParseBrace(u + ("," + v), Obj(members + ReadAll(parts)), "");
    assert "{" + (u + ("," + JoinParts(parts))) + "}" == "{" + (u + ("," + v));
  }

  lemma {:induction false} EmptyObject(parts: seq<Part>)
    requires parts != [] && AllRead(parts)
    ensures Decode("{" + Body(Stripped("{}"), parts) + "}") == Some(Obj(ReadAll(parts)))
  {
    hide Decode, Body, AllRead;
    StripBraces("");
    assert "{" + "" + "}" == "{}";
    BodyJoins([], parts);
    assert [] + parts == parts;
    DecodeParts(parts);
  }

  /** For every object text and every further members: cutting off the outer braces and
      joining gives one object, with the members of both, exactly when the text begins and
      ends with its braces and has a member unless it is just `{}`. */
  lemma {:induction false} SpliceIff(t: string, members: seq<Member>, parts: seq<Part>)
    requires Decode(t) == Some(Obj(members)) && parts != [] && AllRead(parts)
    ensures WellFormed("{" + Body(Stripped(t), parts) + "}") <==> Spliceable(t, members)
    ensures Spliceable(t, members) ==>
              Decode("{" + Body(Stripped(t), parts) + "}") == Some(Obj(members + ReadAll(parts)))
  {
    hide Body, Stripped, ParseMembers, AllRead, ParseValue, JoinParts;
    var w, s := ObjectText(t, members);
    hide Decode;
    var r := ParseObject(s).rest;
    ObjectRest(s, members);
    if w != "" {
      BlankStarts(w);
      LeadingBreaks(t, w, s, parts);
    } else if r != "" {
      assert t == "{" + s;
      TrailingBreaks(t, s, r, parts);
    } else if members != [] {
      assert t == "{" + s;
      ContinuedObject(s, members, parts);
    } else {
      var blank := SkippedWs(s);
      assert t == "{" + blank + "}";
      StripBraces(blank);
      if blank == "" {
        EmptyObject(parts);
        assert [] + ReadAll(parts) == ReadAll(parts);
      } else {
        BlankBreaks(blank, parts);
        assert |t| > 2;
      }
    }
  }

  /** The smallest object text on which the splice fails, whatever follows: nothing stands
      between its braces but white space. */
  lemma {:induction false} BlankObjectBreaks(parts: seq<Part>)
    requires parts != []
    ensures WellFormed("{ }") && !WellFormed("{" + Body(Stripped("{ }"), parts) + "}")
  {
    hide Body, Stripped;
    BlankIsObject();
    StripBraces(" ");
    assert "{" + " " + "}" == "{ }";
    BlankBreaks(" ", parts);
  }

  lemma {:induction false} BlankIsObject()
    ensures Decode("{ }") == Some(Obj([]))
  {
    hide ParseMembers, ParseString;
    var s := "{ }";
    assert s[1..] == " }" && " }"[1..] == "}" && "}"[1..] == "";
    assert SkipWs(" }") == SkipWs("}") == "}";
    assert ParseObject(" }") == Ok(Obj([]), "");
    ParseBrace(" }", Obj([]), "");
    assert "{" + " }" == s;
  }
}
