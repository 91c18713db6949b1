/** The pieces of Go's strings package the program leans on, over Unicode strings. */
module Text {

  /** unicode.IsSpace */
  predicate IsSpace(c: char) {
    || '\t' <= c <= '\r' || c == ' ' || c == '\U{85}' || c == '\U{A0}'
    || c == '\U{1680}' || '\U{2000}' <= c <= '\U{200A}'
    || c == '\U{2028}' || c == '\U{2029}' || c == '\U{202F}' || c == '\U{205F}' || c == '\U{3000}'
  }

  /** The characters with Unicode's White_Space property, by number. */
  lemma IsSpaceMeans(c: char)
    ensures var n := c as int;
            IsSpace(c) <==>
            n in {9, 10, 11, 12, 13, 32, 0x85, 0xA0, 0x1680, 0x2028, 0x2029, 0x202F, 0x205F, 0x3000} ||
            0x2000 <= n <= 0x200A
  {
  }

  /** Nothing but white space. */
  predicate Blank(s: string) { forall c | c in s :: IsSpace(c) }

  function TrimLeft(s: string): string {
    if s != [] && IsSpace(s[0]) then TrimLeft(s[1..]) else s
  }

  function TrimRight(s: string): string {
    if s != [] && IsSpace(s[|s| - 1]) then TrimRight(s[..|s| - 1]) else s
  }

  function TrimSpace(s: string): string { TrimRight(TrimLeft(s)) }

  lemma {:induction false} TrimLeftBlank(s: string)
    ensures TrimLeft(s) == "" <==> Blank(s)
  {
    if s != [] && IsSpace(s[0]) {
      assert s == [s[0]] + s[1..];
      TrimLeftBlank(s[1..]);
    }
  }

  lemma {:induction false} TrimRightBlank(s: string)
    ensures TrimRight(s) == "" <==> Blank(s)
  {
    if s != [] && IsSpace(s[|s| - 1]) {
      assert s == s[..|s| - 1] + [s[|s| - 1]];
      TrimRightBlank(s[..|s| - 1]);
    }
  }

  lemma {:induction false} TrimLeftKeeps(s: string)
    ensures Blank(TrimLeft(s)) <==> Blank(s)
  {
    TrimLeftBlank(s);
    if s != [] && IsSpace(s[0]) {
      assert s == [s[0]] + s[1..];
      TrimLeftKeeps(s[1..]);
    }
  }

  /** Go's test TrimSpace(s) == "" asks whether s is blank. */
  lemma TrimSpaceBlank(s: string)
    ensures TrimSpace(s) == "" <==> Blank(s)
  {
    TrimLeftKeeps(s);
    TrimRightBlank(TrimLeft(s));
  }

  predicate HasPrefix(s: string, p: string) { p <= s }

  predicate HasSuffix(s: string, p: string) { |p| <= |s| && s[|s| - |p|..] == p }

  function TrimSuffix(s: string, p: string): string {
    if HasSuffix(s, p) then s[..|s| - |p|] else s
  }

  predicate Contains(s: string, sub: string) {
    sub <= s || (s != "" && Contains(s[1..], sub))
  }

  /** strings.Contains: sub stands somewhere in s. */
  lemma {:induction false} ContainsMeans(s: string, sub: string)
    ensures Contains(s, sub) <==> exists i :: 0 <= i <= |s| && sub <= s[i..]
  {
    assert s[0..] == s;
    if s != "" {
      ContainsMeans(s[1..], sub);
      if i :| 0 <= i <= |s| && sub <= s[i..] {
        if i > 0 { assert sub <= s[1..][i - 1..]; }
      }
      if i :| 0 <= i <= |s[1..]| && sub <= s[1..][i..] { assert s[i + 1..] == s[1..][i..]; }
    } else {
      assert forall i | 0 <= i <= |s| :: s[i..] == s;
    }
  }

  /** len(s) of a Go string: bytes in its UTF-8 encoding. */
  function ByteLength(s: string): nat {
    if s == [] then 0
    else
      (if s[0] < '\U{80}' then 1 else if s[0] < '\U{800}' then 2 else if s[0] < '\U{10000}' then 3 else 4)
      + ByteLength(s[1..])
  }

  /** RFC 3629, section 3: one to four bytes a character, by the character's value. */
  lemma {:induction false} ByteLengthAppend(s: string, c: char)
    ensures var b := ByteLength(s + [c]) - ByteLength(s);
            1 <= b <= 4 && (b >= 2 <==> c as int >= 0x80) && (b >= 3 <==> c as int >= 0x800) &&
            (b == 4 <==> c as int >= 0x10000)
  {
    if s != "" {
      ByteLengthAppend(s[1..], c);
      assert (s + [c])[1..] == s[1..] + [c];
    }
  }

  /** strings.Join */
  function Join(parts: seq<string>, sep: string): string {
    if parts == [] then ""
    else if |parts| == 1 then parts[0]
    else Join(parts[..|parts| - 1], sep) + sep + parts[|parts| - 1]
  }

  /** Joining is writing the parts in order with the separator between them. */
  lemma {:induction false} JoinAppend(a: seq<string>, b: seq<string>, sep: string)
    ensures Join(a + b, sep) == if a == [] then Join(b, sep) else if b == [] then Join(a, sep)
                                else Join(a, sep) + sep + Join(b, sep)
    ensures |a| == 1 ==> Join(a, sep) == a[0]
  {
    if a == [] {
      assert a + b == b;
    } else if b == [] {
      assert a + b == a;
    } else {
      var front, last := b[..|b| - 1], b[|b| - 1];
      assert (a + b)[..|a + b| - 1] == a + front;
      JoinAppend(a, front, sep);
      if front == [] {
        assert a + front == a;
      } else {
        assert Join(a, sep) + sep + Join(front, sep) + sep + last == Join(a, sep) + sep + Join(b, sep);
      }
    }
  }

  /** Concatenates the parts in order. */
  function Concat(parts: seq<string>): string {
    if parts == [] then "" else parts[0] + Concat(parts[1..])
  }

  lemma {:induction false} ConcatAppend(a: seq<string>, b: seq<string>)
    ensures Concat(a + b) == Concat(a) + Concat(b)
  {
    if a == [] {
      assert a + b == b;
    } else {
      assert (a + b)[1..] == a[1..] + b;
      ConcatAppend(a[1..], b);
    }
  }

  lemma {:induction false} ConcatBlank(parts: seq<string>)
    ensures Blank(Concat(parts)) <==> forall i | 0 <= i < |parts| :: Blank(parts[i])
  {
    if parts != [] {
      ConcatBlank(parts[1..]);
      assert forall c :: c in Concat(parts) <==> c in parts[0] || c in Concat(parts[1..]);
      assert forall i | 1 <= i < |parts| :: parts[i] == parts[1..][i - 1];
    }
  }
}
