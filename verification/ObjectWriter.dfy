/** Writing the members of a JSON object one after another into a byte buffer. */
module ObjectWriter {
  import opened Json
  import opened JsonFragments
  import opened Buffer

  /** `content`, then the parts, with commas between all that is not empty. */
  function Body(content: string, parts: seq<Part>): string {
    if parts == [] then content
    else
      Body(content, parts[..|parts| - 1])
      + ((if content == "" && |parts| == 1 then "" else ",") + PartText(parts[|parts| - 1]))
  }

  function When(present: bool, p: Part): seq<Part> { if present then [p] else [] }

  lemma {:induction false} BodySnoc(content: string, parts: seq<Part>, p: Part)
    ensures Body(content, parts + [p]) ==
              Body(content, parts) + ((if content == "" && parts == [] then "" else ",") + PartText(p))
  {
    assert (parts + [p])[..|parts|] == parts;
  }

  lemma {:induction false} BodyJoins(custom: seq<Part>, parts: seq<Part>)
    ensures Body(JoinParts(custom), parts) == JoinParts(custom + parts)
    decreases |parts|
  {
    hide PartText;
    if parts == [] {
      assert custom + parts == custom;
    } else {
      var front, last := parts[..|parts| - 1], parts[|parts| - 1];
      BodyJoins(custom, front);
      assert custom + parts == (custom + front) + [last];
      JoinEmpty(custom);
      if custom + front != [] {
        JoinSnoc(custom + front, last);
        var a, b := JoinParts(custom + front), PartText(last);
        assert a + "," + b == a + ("," + b);
      } else {
        assert [last] == (custom + front) + [last] && "" + ("" + PartText(last)) == PartText(last);
      }
    }
  }

  lemma {:induction false} JoinEmpty(parts: seq<Part>)
    ensures JoinParts(parts) == "" <==> parts == []
  {
    hide Quote;
  }

  lemma {:induction false} BodyAlone(parts: seq<Part>)
    ensures Body("", parts) == JoinParts(parts)
  {
    BodyJoins([], parts);
    assert [] + parts == parts;
  }

  /** Appends a string in quotes, escaped. */
  method AppendQuoted(buf: JsonBuffer, s: string)
    requires buf.Valid()
    modifies buf, buf.data
    ensures buf.Valid() && (buf.data == old(buf.data) || fresh(buf.data))
    ensures buf.Contents() == old(buf.Contents()) + Quote(s)
  {
    hide Escape, JsonBuffer.Contents, JsonBuffer.Valid;
    ghost var start := buf.Contents();
    buf.Append("\"");
    buf.AppendEscaped(s);
    buf.Append("\"");
    assert start + "\"" + Escape(s) + "\"" == start + ("\"" + Escape(s) + "\"");
  }

  class Writer {
    const buf: JsonBuffer
    var first: bool
    ghost const start: string
    ghost var content: string
    ghost var parts: seq<Part>

    ghost predicate Valid()
      reads this, buf, buf.data
    {
      && buf.Valid()
      && first == (content == "" && parts == [])
      && buf.Contents() == start + Body(content, parts)
    }

    /** A member of this name has been begun, and `text` of its value is written. */
    ghost predicate Inside(name: string, text: string)
      reads this, buf, buf.data
    {
      && buf.Valid()
      && first == (content == "" && parts == [])
      && buf.Contents() == start + (Body(content, parts) + ((if first then "" else ",") + (Quote(name) + ":" + text)))
    }

    constructor (buf: JsonBuffer)
      requires buf.Valid()
      ensures Valid() && this.buf == buf && start == buf.Contents() && content == "" && parts == []
    {
      hide JsonBuffer.Contents, JsonBuffer.Valid;
      this.buf, first := buf, true;
      start, content, parts := buf.Contents(), "", [];
      new;
      assert start + "" == start;
    }

    /** Members written elsewhere, taken over as they are. */
    method Splice(text: string)
      requires Valid() && content == "" && parts == []
      modifies this, buf, buf.data
      ensures Valid() && content == text && parts == []
      ensures buf.data == old(buf.data) || fresh(buf.data)
    {
      hide JsonBuffer.Contents, JsonBuffer.Valid;
      if |text| > 0 {
        buf.Append(text);
        first, content := false, text;
      }
    }

    /** A comma unless the member comes first, its name and the colon. */
    method Begin(name: string)
      requires Valid()
      modifies buf, buf.data
      ensures Inside(name, "") && (buf.data == old(buf.data) || fresh(buf.data))
    {
      hide Quote, JsonBuffer.Contents, JsonBuffer.Valid, Body;
      if !first {
        buf.Append(",");
      }
      buf.Append(Quote(name) + ":");
      ghost var body, colon := Body(content, parts), Quote(name) + ":";
      assert colon + "" == colon && "" + colon == colon;
      assert start + body + "," + colon == start + (body + ("," + colon));
    }

    /** The member begun is complete. */
    method End(name: string, ghost text: string)
      requires Inside(name, text)
      modifies this
      ensures Valid() && parts == old(parts) + [Part(name, text)] && content == old(content)
    {
      hide Quote, JsonBuffer.Contents, JsonBuffer.Valid, Body;
      BodySnoc(content, parts, Part(name, text));
      first, parts := false, parts + [Part(name, text)];
    }

    /** A member whose value's text is at hand. */
    method Add(p: Part)
      requires Valid()
      modifies this, buf, buf.data
      ensures Valid() && parts == old(parts) + [p] && content == old(content)
      ensures buf.data == old(buf.data) || fresh(buf.data)
    {
      hide Valid, JsonBuffer.Contents, JsonBuffer.Valid;
      Begin(p.name);
      Put(p.name, "", p.text);
      assert "" + p.text == p.text;
      End(p.name, p.text);
    }

    method AddIf(present: bool, p: Part)
      requires Valid()
      modifies this, buf, buf.data
      ensures Valid() && parts == old(parts) + When(present, p) && content == old(content)
      ensures buf.data == old(buf.data) || fresh(buf.data)
    {
      hide Valid;
      if present {
        Add(p);
      }
    }

    /** Some more of the value of the member begun. */
    method Put(ghost name: string, ghost text: string, more: string)
      requires Inside(name, text)
      modifies buf, buf.data
      ensures Inside(name, text + more) && (buf.data == old(buf.data) || fresh(buf.data))
    {
      hide JsonBuffer.Contents, JsonBuffer.Valid, Body, Quote;
      ghost var body, lead, colon := Body(content, parts), if first then "" else ",", Quote(name) + ":";
      Grown(start, body, lead, colon, text, more);
      buf.Append(more);
    }

    method PutEscaped(ghost name: string, ghost text: string, str: string)
      requires Inside(name, text)
      modifies buf, buf.data
      ensures Inside(name, text + Escape(str)) && (buf.data == old(buf.data) || fresh(buf.data))
    {
      hide JsonBuffer.Contents, JsonBuffer.Valid, Body, Quote, Escape;
      ghost var body, lead, colon := Body(content, parts), if first then "" else ",", Quote(name) + ":";
      Grown(start, body, lead, colon, text, Escape(str));
      buf.AppendEscaped(str);
    }

    /** A string value. */
    method AddQuoted(name: string, s: string)
      requires Valid()
      modifies this, buf, buf.data
      ensures Valid() && parts == old(parts) + [Part(name, Quote(s))] && content == old(content)
      ensures buf.data == old(buf.data) || fresh(buf.data)
    {
      hide Valid, JsonBuffer.Contents, JsonBuffer.Valid, Body, Quote;
      Begin(name);
      ghost var body, lead, colon := Body(content, parts), if first then "" else ",", Quote(name) + ":";
      Grown(start, body, lead, colon, "", Quote(s));
      assert "" + Quote(s) == Quote(s);
      AppendQuoted(buf, s);
      End(name, Quote(s));
    }

    method AddQuotedIf(present: bool, name: string, s: string)
      requires Valid()
      modifies this, buf, buf.data
      ensures Valid() && parts == old(parts) + When(present, Part(name, Quote(s))) && content == old(content)
      ensures buf.data == old(buf.data) || fresh(buf.data)
    {
      hide Valid, Quote;
      if present {
        AddQuoted(name, s);
      }
    }
  }

  lemma Grown(start: string, body: string, lead: string, colon: string, text: string, more: string)
    ensures start + (body + (lead + (colon + text))) + more == start + (body + (lead + (colon + (text + more))))
  {
    var a, b := colon + text, lead + (colon + text);
    assert colon + (text + more) == a + more;
    assert lead + (a + more) == b + more;
    assert body + (b + more) == (body + b) + more;
  }
}
