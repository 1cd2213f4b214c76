/** JSON Pointer segments: the two whole-string replacements against the escape rules of section 4 of RFC 6901. */
module JsonPointer {

  datatype Decoded = Parts(parts: seq<string>) | InvalidEscape

  /** The segments between slashes; there is always at least one. */
  function Split(s: string): (r: seq<string>)
    ensures r != []
  {
    if s == "" then [""]
    else
      var rest := Split(s[1..]);
      if s[0] == '/' then [""] + rest else [[s[0]] + rest[0]] + rest[1..]
  }

  /** Every tilde starts one of the two escapes. */
  predicate EscapesOk(s: string) {
    if s == "" then true
    else if s[0] != '~' then EscapesOk(s[1..])
    else |s| >= 2 && s[1] in "01" && EscapesOk(s[2..])
  }

  /** `str.replace("~" + digit, out)`. */
  function Replace(s: string, digit: char, out: char): string {
    if s == "" then ""
    else if |s| >= 2 && s[0] == '~' && s[1] == digit then [out] + Replace(s[2..], digit, out)
    else [s[0]] + Replace(s[1..], digit, out)
  }

  function DecodeSegment(s: string): string {
    Replace(Replace(s, '1', '/'), '0', '~')
  }

  /** A single pass from left to right. */
  function Unescape(s: string): string
    requires EscapesOk(s)
  {
    if s == "" then ""
    else if s[0] != '~' then [s[0]] + Unescape(s[1..])
    else [if s[1] == '0' then '~' else '/'] + Unescape(s[2..])
  }

  function Escape(s: string): string {
    if s == "" then ""
    else (if s[0] == '~' then "~0" else if s[0] == '/' then "~1" else [s[0]]) + Escape(s[1..])
  }

  predicate SlashFree(s: string) {
    '/' !in s
  }

  lemma {:induction false} TwoPassesAreOne(s: string)
    requires EscapesOk(s)
    ensures DecodeSegment(s) == Unescape(s)
  {
    if s == "" {
    } else if s[0] != '~' {
      TwoPassesAreOne(s[1..]);
      var first := Replace(s, '1', '/');
      assert first == [s[0]] + Replace(s[1..], '1', '/');
      assert first[1..] == Replace(s[1..], '1', '/');
    } else {
      TwoPassesAreOne(s[2..]);
      var tail := Replace(s[2..], '1', '/');
      var first := Replace(s, '1', '/');
      if s[1] == '1' {
        assert first == ['/'] + tail && first[1..] == tail;
      } else {
        assert s[1..][1..] == s[2..];
        assert Replace(s[1..], '1', '/') == ['0'] + tail;
        assert first == ['~', '0'] + tail && first[2..] == tail;
      }
    }
  }

  /** The order of the two replacements matters. */
  lemma ReversedPassesDiffer()
    ensures DecodeSegment("~01") == "~1"
    ensures Replace(Replace("~01", '0', '~'), '1', '/') == "/"
  {
  }

  lemma {:induction false} EscapeRoundTrip(s: string)
    ensures EscapesOk(Escape(s)) && SlashFree(Escape(s)) && Unescape(Escape(s)) == s
  {
    if s != "" {
      EscapeRoundTrip(s[1..]);
      var e := Escape(s);
      if s[0] == '~' || s[0] == '/' {
        assert e[2..] == Escape(s[1..]);
      } else {
        assert e[1..] == Escape(s[1..]);
      }
    }
  }

  lemma {:induction false} UnescapeRoundTrip(s: string)
    requires EscapesOk(s) && SlashFree(s)
    ensures Escape(Unescape(s)) == s
  {
    if s != "" {
      var n := if s[0] == '~' then 2 else 1;
      UnescapeRoundTrip(s[n..]);
      var u := Unescape(s);
      assert u[1..] == Unescape(s[n..]);
      assert s == s[..n] + s[n..];
    }
  }

  lemma DecodingIsInjective(s: string, t: string)
    requires EscapesOk(s) && SlashFree(s) && EscapesOk(t) && SlashFree(t)
    requires DecodeSegment(s) == DecodeSegment(t)
    ensures s == t
  {
    TwoPassesAreOne(s);
    TwoPassesAreOne(t);
    UnescapeRoundTrip(s);
    UnescapeRoundTrip(t);
  }

  /** The escape scan of one segment. */
  method ScanEscapes(segment: string) returns (ok: bool)
    ensures ok == EscapesOk(segment)
  {
    var index := 0;
    while index < |segment|
      invariant 0 <= index <= |segment|
      invariant EscapesOk(segment) == EscapesOk(segment[index..])
    {
      if segment[index] != '~' {
        assert segment[index..][1..] == segment[index + 1..];
        index := index + 1;
      } else if index + 1 >= |segment| || segment[index + 1] !in "01" {
        return false;
      } else {
        assert segment[index..][2..] == segment[index + 2..];
        index := index + 2;
      }
    }
    ok := true;
  }

  function Encode(parts: seq<string>): string {
    if parts == [] then "" else "/" + EncodeTail(parts)
  }

  function EncodeTail(parts: seq<string>): string
    requires parts != []
  {
    if |parts| == 1 then Escape(parts[0]) else Escape(parts[0]) + "/" + EncodeTail(parts[1..])
  }

  /** The meaning of a pointer: nothing, or its segments unescaped one by one. */
  function Meaning(pointer: string): Decoded {
    if pointer == "" then Parts([])
    else
      var segments := Split(pointer[1..]);
      if forall s <- segments :: EscapesOk(s) then
        Parts(seq(|segments|, i requires 0 <= i < |segments| => Unescape(segments[i])))
      else InvalidEscape
  }

  method DecodePointerParts(pointer: string) returns (r: Decoded)
    ensures r == Meaning(pointer)
  {
    if pointer == "" {
      return Parts([]);
    }
    var parts: seq<string> := [];
    var segments := Split(pointer[1..]);
    for i := 0 to |segments|
      invariant |parts| == i
      invariant forall j | 0 <= j < i :: EscapesOk(segments[j]) && parts[j] == Unescape(segments[j])
    {
      var ok := ScanEscapes(segments[i]);
      if !ok {
        return InvalidEscape;
      }
      TwoPassesAreOne(segments[i]);
      parts := parts + [DecodeSegment(segments[i])];
    }
    assert parts == seq(|segments|, i requires 0 <= i < |segments| => Unescape(segments[i]));
    r := Parts(parts);
  }

  // ----- Whole pointers -----

  function Join(segments: seq<string>): string
    requires segments != []
  {
    if |segments| == 1 then segments[0] else segments[0] + "/" + Join(segments[1..])
  }

  lemma {:induction false} SplitSegments(s: string)
    ensures forall t <- Split(s) :: SlashFree(t)
    ensures Join(Split(s)) == s
  {
    if s != "" {
      SplitSegments(s[1..]);
      var rest := Split(s[1..]);
      if s[0] == '/' {
        assert Split(s)[1..] == rest;
        assert Join(Split(s)) == "/" + Join(rest);
      } else {
        assert Split(s)[1..] == rest[1..];
        assert Join(Split(s)) == [s[0]] + Join(rest);
        assert SlashFree(rest[0]);
        assert SlashFree([s[0]] + rest[0]);
      }
      assert s == [s[0]] + s[1..];
    }
  }

  lemma {:induction false} SplitAtSlash(s: string, t: string)
    requires SlashFree(s)
    ensures Split(s) == [s]
    ensures Split(s + "/" + t) == [s] + Split(t)
  {
    if s == "" {
      assert "/" + t == s + "/" + t && ("/" + t)[1..] == t;
    } else {
      SplitAtSlash(s[1..], t);
      assert [s[0]] + s[1..] == s;
      assert (s + "/" + t)[1..] == s[1..] + "/" + t;
    }
  }

  function EscapeAll(parts: seq<string>): (r: seq<string>)
    ensures |r| == |parts| && forall i | 0 <= i < |r| :: r[i] == Escape(parts[i])
  {
    if parts == [] then [] else [Escape(parts[0])] + EscapeAll(parts[1..])
  }

  lemma {:induction false} SplitEncoded(parts: seq<string>)
    requires parts != []
    ensures Split(EncodeTail(parts)) == EscapeAll(parts)
  {
    EscapeRoundTrip(parts[0]);
    if |parts| == 1 {
      SplitAtSlash(Escape(parts[0]), "");
    } else {
      SplitEncoded(parts[1..]);
      SplitAtSlash(Escape(parts[0]), EncodeTail(parts[1..]));
    }
  }

  /** Any list of keys can be written as a pointer, and is read back unchanged. */
  lemma EncodeThenDecode(parts: seq<string>)
    ensures Meaning(Encode(parts)) == Parts(parts)
  {
    if parts != [] {
      SplitEncoded(parts);
      assert Encode(parts)[1..] == EncodeTail(parts);
      var segments := Split(Encode(parts)[1..]);
      forall i | 0 <= i < |parts|
        ensures EscapesOk(segments[i]) && Unescape(segments[i]) == parts[i]
      {
        EscapeRoundTrip(parts[i]);
      }
      assert Meaning(Encode(parts)).parts == parts;
    }
  }

  lemma {:induction false} EncodeJoined(segments: seq<string>)
    requires segments != [] && forall s <- segments :: EscapesOk(s) && SlashFree(s)
    ensures EncodeTail(seq(|segments|, i requires 0 <= i < |segments| => Unescape(segments[i]))) == Join(segments)
  {
    var parts := seq(|segments|, i requires 0 <= i < |segments| => Unescape(segments[i]));
    UnescapeRoundTrip(segments[0]);
    if |segments| > 1 {
      var rest := segments[1..];
      EncodeJoined(rest);
      assert parts[1..] == seq(|rest|, i requires 0 <= i < |rest| => Unescape(rest[i]));
    }
  }

  /** Every accepted pointer is the only spelling of the keys it decodes to. */
  lemma DecodeThenEncode(pointer: string)
    requires pointer == "" || pointer[0] == '/'
    requires Meaning(pointer).Parts?
    ensures Encode(Meaning(pointer).parts) == pointer
  {
    if pointer != "" {
      SplitSegments(pointer[1..]);
      EncodeJoined(Split(pointer[1..]));
      assert pointer == "/" + pointer[1..];
    }
  }
}
