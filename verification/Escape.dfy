/** The length estimate and the bounded writer of the request serializer. */
module EscapeWriters {
  import opened Lcs
  import opened Json
  import opened JsonRoundTrip

  /** The switch of the length estimate. */
  method JsonEscapedLength(str: string) returns (escapedLen: nat)
    ensures escapedLen == |Escape(str)|
  {
    escapedLen := 0;
    for i := 0 to |str|
      invariant escapedLen + |Escape(str[i..])| == |Escape(str)|
    {
      var c := str[i];
      if c == '"' || c == '\\' || c == BS || c == FF || c == '\n' || c == '\r' || c == '\t' {
        escapedLen := escapedLen + 2;
      } else if c < ' ' {
        escapedLen := escapedLen + 6;
      } else {
        escapedLen := escapedLen + 1;
      }
    }
  }

  /** The characters the bounded writer keeps when `room` bytes are left for text:
      one whose escape does not fit is dropped, and an exhausted buffer ends the loop. */
  function Kept(s: string, room: nat): string {
    if s == "" || room == 0 then ""
    else if |EscapeChar(s[0])| <= room then [s[0]] + Kept(s[1..], room - |EscapeChar(s[0])|)
    else Kept(s[1..], room)
  }

  /** The kept characters are a subsequence whose escape fits; nothing is dropped exactly
      when the whole escape fits. */
  lemma {:induction false} KeptFacts(s: string, room: nat)
    ensures Subseq(Kept(s, room), s)
    ensures |Escape(Kept(s, room))| <= room
    ensures |Escape(s)| <= room <==> Kept(s, room) == s
  {
    if s != "" {
      var e := EscapeChar(s[0]);
      if room == 0 {
      } else if |e| <= room {
        KeptFacts(s[1..], room - |e|);
        var k := Kept(s[1..], room - |e|);
        assert ([s[0]] + k)[1..] == k;
      } else {
        KeptFacts(s[1..], room);
        SubseqLength(Kept(s[1..], room), s[1..]);
      }
    }
  }

  /** A further character is kept exactly when its escape still fits behind what was kept
      so far; one that does not fit is left out without ending the text. */
  lemma {:induction false} KeptNext(s: string, c: char, room: nat)
    ensures var before := Kept(s, room);
            Kept(s + [c], room)
            == if |Escape(before)| + |EscapeChar(c)| <= room then before + [c] else before
  {
    hide EscapeChar;
    if s == "" {
      assert s + [c] == [c] && [c][1..] == "";
      assert [c] + "" == [c] == "" + [c];
    } else if room > 0 {
      var e := EscapeChar(s[0]);
      assert (s + [c])[0] == s[0] && (s + [c])[1..] == s[1..] + [c];
      if |e| <= room {
        KeptNext(s[1..], c, room - |e|);
        var k := Kept(s[1..], room - |e|);
        assert ([s[0]] + k)[1..] == k;
        assert [s[0]] + (k + [c]) == [s[0]] + k + [c];
      } else {
        KeptNext(s[1..], c, room);
      }
    }
  }

  /** Seven characters take two bytes, the other control characters six, all others one;
      and each is read back as it was. */
  lemma EscapeSizes(c: char)
    ensures |EscapeChar(c)|
         == if c in {'"', '\\', 8 as char, 12 as char, '\n', '\r', '\t'} then 2 else if c < 32 as char then 6 else 1
    ensures forall rest :: ParseString(EscapeChar(c) + "\"" + rest) == Ok([c], rest)
  {
    forall rest
      ensures ParseString(EscapeChar(c) + "\"" + rest) == Ok([c], rest)
    {
      hide EscapeChar;
      ParseEscaped([c], rest);
      assert Escape([c]) == EscapeChar(c) by { EscapeSnoc("", c); }
    }
  }

  lemma {:induction false} EscapeSnoc(s: string, c: char)
    ensures Escape(s + [c]) == Escape(s) + EscapeChar(c)
  {
    hide EscapeChar;
    if s == "" {
      assert s + [c] == [c] && [c][1..] == "";
      assert EscapeChar(c) + "" == EscapeChar(c) == "" + EscapeChar(c);
    } else {
      EscapeSnoc(s[1..], c);
      assert (s + [c])[0] == s[0] && (s + [c])[1..] == s[1..] + [c];
      assert EscapeChar(s[0]) + (Escape(s[1..]) + EscapeChar(c)) == EscapeChar(s[0]) + Escape(s[1..]) + EscapeChar(c);
    }
  }

  /** `text` is the escape of `done`, what was kept of `str[..p]`, with `room` bytes left. */
  ghost predicate Wrote(done: string, text: string, str: string, p: nat, room: nat, total: nat)
    requires p <= |str|
  {
    text == Escape(done) && done + Kept(str[p..], room) == Kept(str, total)
  }

  lemma WroteFit(done: string, text: string, str: string, p: nat, room: nat, total: nat)
    requires p < |str| && 0 < |EscapeChar(str[p])| <= room && Wrote(done, text, str, p, room, total)
    ensures Wrote(done + [str[p]], text + EscapeChar(str[p]), str, p + 1, room - |EscapeChar(str[p])|, total)
  {
    var c := str[p];
    KeptUnfold(str, p, room);
    EscapeSnoc(done, c);
    var rest := Kept(str[p + 1..], room - |EscapeChar(c)|);
    assert done + ([c] + rest) == (done + [c]) + rest;
  }

  lemma WroteSkip(done: string, text: string, str: string, p: nat, room: nat, total: nat)
    requires p < |str| && 0 < room < |EscapeChar(str[p])| && Wrote(done, text, str, p, room, total)
    ensures Wrote(done, text, str, p + 1, room, total)
  {
    KeptUnfold(str, p, room);
  }

  lemma WroteNothing(str: string, total: nat)
    ensures Wrote("", "", str, 0, total, total)
  {
    assert str[0..] == str && "" + Kept(str, total) == Kept(str, total);
  }

  lemma {:induction false} WroteAll(done: string, text: string, str: string, p: nat, room: nat, total: nat)
    requires p <= |str| && Wrote(done, text, str, p, room, total) && (p == |str| || room == 0)
    ensures text == Escape(Kept(str, total))
  {
    assert done + "" == done;
  }

  lemma {:induction false} KeptUnfold(str: string, p: nat, room: nat)
    requires p < |str| && room > 0
    ensures Kept(str[p..], room)
         == if |EscapeChar(str[p])| <= room then [str[p]] + Kept(str[p + 1..], room - |EscapeChar(str[p])|)
            else Kept(str[p + 1..], room)
  {
    assert str[p..][0] == str[p] && str[p..][1..] == str[p + 1..];
  }

  /** The bounded writer: `dest` has at least one byte. It stays in range and terminates
      the escape of the kept characters, which `KeptFacts` describes. */
  method JsonEscapeAndWrite(dest: array<char>, str: string) returns (pos: nat)
    requires dest.Length >= 1
    modifies dest
    ensures pos < dest.Length && dest[pos] == '\0'
    ensures dest[..pos] == Escape(Kept(str, dest.Length - 1))
  {
    hide EscapeChar, Escape, Kept, Wrote;
    pos := 0;
    var p := 0;
    ghost var done, total := "", dest.Length - 1;
    WroteNothing(str, total);
    assert dest[..0] == "";
    while p < |str| && pos < dest.Length - 1
      invariant p <= |str| && pos < dest.Length
      invariant Wrote(done, dest[..pos], str, p, total - pos, total)
    {
      pos, done := WriteNext(dest, pos, str, p, done);
      p := p + 1;
    }
    ghost var text := dest[..pos];
    WroteAll(done, text, str, p, total - pos, total);
    dest[pos] := '\0';
    assert dest[..pos] == text;
  }

  method WriteNext(dest: array<char>, pos: nat, str: string, p: nat, ghost done: string)
    returns (pos': nat, ghost done': string)
    requires p < |str| && pos < dest.Length - 1
    requires Wrote(done, dest[..pos], str, p, dest.Length - 1 - pos, dest.Length - 1)
    modifies dest
    ensures pos' < dest.Length
    ensures Wrote(done', dest[..pos'], str, p + 1, dest.Length - 1 - pos', dest.Length - 1)
  {
    hide EscapeChar, Wrote;
    ghost var text, total := dest[..pos], dest.Length - 1;
    pos' := WriteChar(dest, pos, str[p]);
    if pos' > pos {
      WroteFit(done, text, str, p, total - pos, total);
      done' := done + [str[p]];
    } else {
      WroteSkip(done, text, str, p, total - pos, total);
      done' := done;
    }
  }

  /** One turn of the writer's switch. */
  method WriteChar(dest: array<char>, pos: nat, c: char) returns (pos': nat)
    requires pos < dest.Length - 1
    modifies dest
    ensures pos' == if |EscapeChar(c)| <= dest.Length - 1 - pos then pos + |EscapeChar(c)| else pos
    ensures dest[..pos'] == if pos' > pos then old(dest[..pos]) + EscapeChar(c) else old(dest[..pos])
  {
    pos' := pos;
    if c == '"' || c == '\\' || c == BS || c == FF || c == '\n' || c == '\r' || c == '\t' {
      if pos + 2 < dest.Length {
        dest[pos] := '\\';
        dest[pos + 1] :=
          if c == BS then 'b' else if c == FF then 'f' else if c == '\n' then 'n'
          else if c == '\r' then 'r' else if c == '\t' then 't' else c;
        pos' := pos + 2;
      }
    } else if c < ' ' {
      if pos + 6 < dest.Length {
        // snprintf also writes a terminator after the six bytes
        dest[pos], dest[pos + 1], dest[pos + 2], dest[pos + 3] := '\\', 'u', '0', '0';
        dest[pos + 4], dest[pos + 5] := HexDigit(c as int / 16), HexDigit(c as int % 16);
        dest[pos + 6] := '\0';
        pos' := pos + 6;
      }
    } else {
      dest[pos] := c;
      pos' := pos + 1;
    }
  }
}
