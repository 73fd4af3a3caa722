/** Option, Result and the text operations shared by the models of this project. */
module Prelude {

  datatype Option<+T> = None | Some(value: T)

  datatype Result<+T, +E> = Success(value: T) | Failure(error: E)

  /** The characters Python's `str.strip` removes. */
  predicate IsSpace(c: char) {
    || '\t' <= c <= '\r' || '\U{1C}' <= c <= '\U{20}' || c == '\U{85}' || c == '\U{A0}' || c == '\U{1680}'
    || '\U{2000}' <= c <= '\U{200A}' || c == '\U{2028}' || c == '\U{2029}' || c == '\U{202F}'
    || c == '\U{205F}' || c == '\U{3000}'
  }

  function StripLeft(s: string): (r: string)
    ensures r == [] || !IsSpace(r[0])
  {
    if s != [] && IsSpace(s[0]) then StripLeft(s[1..]) else s
  }

  function StripRight(s: string): (r: string)
    ensures r <= s
    ensures r == [] || !IsSpace(r[|r| - 1])
  {
    if s != [] && IsSpace(s[|s| - 1]) then StripRight(s[..|s| - 1]) else s
  }

  function Strip(s: string): string {
    StripRight(StripLeft(s))
  }

  predicate AllSpace(s: string) {
    forall c | c in s :: IsSpace(c)
  }

  lemma {:induction false} StripLeftCuts(s: string)
    ensures |StripLeft(s)| <= |s| && s[|s| - |StripLeft(s)|..] == StripLeft(s)
    ensures AllSpace(s[..|s| - |StripLeft(s)|])
  {
    if s != [] && IsSpace(s[0]) {
      StripLeftCuts(s[1..]);
      assert s[..|s| - |StripLeft(s)|] == [s[0]] + s[1..][..|s[1..]| - |StripLeft(s)|];
    }
  }

  lemma {:induction false} StripRightCuts(s: string)
    ensures AllSpace(s[|StripRight(s)|..])
  {
    if s != [] && IsSpace(s[|s| - 1]) {
      StripRightCuts(s[..|s| - 1]);
      assert s[|StripRight(s)|..] == s[..|s| - 1][|StripRight(s)|..] + [s[|s| - 1]];
    }
  }

  /** Stripping cuts nothing but space off both ends, and all of it. */
  lemma StripCuts(s: string)
    ensures exists left, right :: s == left + Strip(s) + right && AllSpace(left) && AllSpace(right)
    ensures Strip(s) != "" ==> !IsSpace(Strip(s)[0]) && !IsSpace(Strip(s)[|Strip(s)| - 1])
  {
    hide StripLeft, StripRight, AllSpace, IsSpace;
    var trimmed := StripLeft(s);
    StripLeftCuts(s);
    StripRightCuts(trimmed);
    var left, right := s[..|s| - |trimmed|], trimmed[|Strip(s)|..];
    assert trimmed == Strip(s) + right && s == left + trimmed;
  }

  predicate Blank(s: string) {
    Strip(s) == ""
  }

  function Split(s: string, separator: char): seq<string> {
    if s == [] then [""]
    else
      var rest := Split(s[1..], separator);
      if s[0] == separator then [""] + rest
      else if rest == [] then [[s[0]]]
      else [[s[0]] + rest[0]] + rest[1..]
  }

  function Joined(parts: seq<string>, separator: char): string {
    if parts == [] then ""
    else if |parts| == 1 then parts[0]
    else parts[0] + [separator] + Joined(parts[1..], separator)
  }

  /** Splitting is the inverse of joining, and leaves no separator inside a part. */
  lemma {:induction false} SplitJoins(s: string, separator: char)
    ensures Split(s, separator) != [] && Joined(Split(s, separator), separator) == s
    ensures forall part | part in Split(s, separator) :: separator !in part
  {
    if s != "" {
      SplitJoins(s[1..], separator);
      var rest := Split(s[1..], separator);
      if s[0] == separator {
        assert Split(s, separator)[1..] == rest;
      } else {
        assert Split(s, separator)[1..] == rest[1..];
      }
      assert s == [s[0]] + s[1..];
    }
  }

  /** The bytes of a text in UTF-8. */
  function Utf8Length(s: string): nat {
    if s == "" then 0
    else
      var c := s[|s| - 1] as int;
      Utf8Length(s[..|s| - 1]) + (if c < 0x80 then 1 else if c < 0x800 then 2 else if c < 0x10000 then 3 else 4)
  }
}
