/**
 * The few `java.lang.String` and `StringUtils` operations the generators rely on,
 * written out over `seq<char>`.
 */
module JavaStrings {
  import opened Wrappers

  /** `s.replace(from, to)` for one-character arguments: every `from` becomes `to`. */
  function Replace(s: string, from: char, to: char): (r: string)
    ensures |r| == |s|
    ensures forall i :: 0 <= i < |s| ==> r[i] == if s[i] == from then to else s[i]
  {
    if s == [] then [] else [if s[0] == from then to else s[0]] + Replace(s[1..], from, to)
  }

  /** Every piece of `s` between occurrences of `sep`, empty pieces included. */
  function Pieces(s: string, sep: char): (parts: seq<string>)
    ensures |parts| >= 1
  {
    if s == [] then [""]
    else
      var rest := Pieces(s[1..], sep);
      if s[0] == sep then [""] + rest else [[s[0]] + rest[0]] + rest[1..]
  }

  /** The parts with `sep` between consecutive ones. */
  function Join(parts: seq<string>, sep: char): string
  {
    if |parts| == 0 then ""
    else if |parts| == 1 then parts[0]
    else parts[0] + [sep] + Join(parts[1..], sep)
  }

  /** The parts without their trailing empty strings. */
  function DropTrailingEmpty(parts: seq<string>): (r: seq<string>)
    ensures |r| <= |parts| && r == parts[..|r|]
    ensures r != [] ==> r[|r| - 1] != ""
    ensures forall i :: |r| <= i < |parts| ==> parts[i] == ""
  {
    if parts == [] then []
    else if parts[|parts| - 1] == "" then DropTrailingEmpty(parts[..|parts| - 1])
    else parts
  }

  /**
   * `s.split(sep)` for a separator that is not a regular-expression metacharacter:
   * the whole string when `sep` does not occur, otherwise the pieces between
   * separators with the trailing empty pieces removed.
   */
  function Split(s: string, sep: char): seq<string>
  {
    if sep !in s then [s] else DropTrailingEmpty(Pieces(s, sep))
  }

  lemma {:induction false} JoinSnoc(parts: seq<string>, last: string, sep: char)
    ensures Join(parts + [last], sep) == if parts == [] then last else Join(parts, sep) + [sep] + last
  {
    if |parts| > 1 {
      assert (parts + [last])[1..] == parts[1..] + [last];
      JoinSnoc(parts[1..], last, sep);
    }
  }

  /** Joining the pieces with the separator gives the string back; no piece holds a separator. */
  lemma {:induction false} PiecesJoin(s: string, sep: char)
    ensures Join(Pieces(s, sep), sep) == s
    ensures forall p :: p in Pieces(s, sep) ==> sep !in p
    ensures forall p, c :: p in Pieces(s, sep) && c in p ==> c in s
  {
    if s != [] {
      PiecesJoin(s[1..], sep);
      var rest := Pieces(s[1..], sep);
      assert s == [s[0]] + s[1..];
      if s[0] == sep {
        assert ([""] + rest)[1..] == rest;
      } else {
        var parts := [[s[0]] + rest[0]] + rest[1..];
        assert parts[1..] == rest[1..];
        if |rest| > 1 {
          assert Join(rest, sep) == rest[0] + [sep] + Join(rest[1..], sep);
        }
        forall p | p in parts ensures sep !in p && forall c :: c in p ==> c in s {
          if p != [s[0]] + rest[0] {
            assert p in rest;
          }
        }
      }
    }
  }

  lemma {:induction false} DropTrailingEmptyJoin(parts: seq<string>, sep: char)
    ensures var kept := Join(DropTrailingEmpty(parts), sep);
            var all := Join(parts, sep);
            kept <= all && forall i :: |kept| <= i < |all| ==> all[i] == sep
  {
    if parts != [] && parts[|parts| - 1] == "" {
      var init := parts[..|parts| - 1];
      assert parts == init + [""];
      DropTrailingEmptyJoin(init, sep);
      JoinSnoc(init, "", sep);
    }
  }

  /**
   * What `split` promises: a string without the separator is its only part;
   * otherwise the last part is never empty, since trailing empty parts are
   * dropped. No part holds the separator or a character foreign to `s`, and
   * joining the parts with the separator gives `s` up to the trailing
   * separators that `split` drops.
   */
  lemma SplitParts(s: string, sep: char)
    ensures sep !in s ==> Split(s, sep) == [s]
    ensures sep in s ==> Split(s, sep) == [] || Split(s, sep)[|Split(s, sep)| - 1] != ""
    ensures forall p :: p in Split(s, sep) ==> sep !in p
    ensures forall p, c :: p in Split(s, sep) && c in p ==> c in s
    ensures var joined := Join(Split(s, sep), sep);
            joined <= s && forall i :: |joined| <= i < |s| ==> s[i] == sep
  {
    if sep in s {
      PiecesJoin(s, sep);
      DropTrailingEmptyJoin(Pieces(s, sep), sep);
      var parts := Pieces(s, sep);
      var kept := DropTrailingEmpty(parts);
      forall p | p in kept ensures p in parts {
        var i :| 0 <= i < |kept| && kept[i] == p;
        assert parts[i] == p;
      }
    }
  }

  /** `s.indexOf(c)`: the position of the first `c`, or `None` where Java returns -1. */
  function IndexOf(s: string, c: char): (r: Option<nat>)
    ensures r.Some? ==> r.value < |s| && s[r.value] == c && c !in s[..r.value]
    ensures r.None? ==> c !in s
  {
    if s == [] then None
    else if s[0] == c then Some(0)
    else
      var rest := IndexOf(s[1..], c);
      assert s == [s[0]] + s[1..];
      if rest.Some? then
        assert s[..rest.value + 1] == [s[0]] + s[1..][..rest.value];
        Some(rest.value + 1)
      else None
  }

  /** The first `c` of `prefix + rest` is the one `rest` starts with, when `prefix` has none. */
  lemma IndexOfAfter(prefix: string, rest: string, c: char)
    requires c !in prefix && |rest| > 0 && rest[0] == c
    ensures IndexOf(prefix + rest, c) == Some(|prefix|)
  {
    var s := prefix + rest;
    assert s[|prefix|] == c;
    assert forall n :: |prefix| < n <= |s| ==> s[..n][|prefix|] == c;
    assert forall i :: 0 <= i < |prefix| ==> s[i] == prefix[i];
  }

  /** ASCII upper-casing, the part of `Character.toUpperCase` the model keeps. */
  function ToUpperAscii(c: char): char
  {
    if 'a' <= c <= 'z' then (c as int - 32) as char else c
  }

  /** `a.equalsIgnoreCase(b)` for strings whose letters are ASCII. */
  predicate EqualsIgnoreCase(a: string, b: string)
  {
    |a| == |b| && forall i :: 0 <= i < |a| ==> ToUpperAscii(a[i]) == ToUpperAscii(b[i])
  }

  /** `Character.isWhitespace`. */
  predicate IsWhitespace(c: char)
  {
    var n := c as int;
    (9 <= n <= 13) || (28 <= n <= 32)
    || n == 0x1680 || (0x2000 <= n <= 0x2006) || (0x2008 <= n <= 0x200A)
    || n == 0x2028 || n == 0x2029 || n == 0x205F || n == 0x3000
  }

  /** `StringUtils.isNotBlank`: not null and holding a character that is not whitespace. */
  predicate IsNotBlank(s: Option<string>)
  {
    s.Some? && exists i :: 0 <= i < |s.value| && !IsWhitespace(s.value[i])
  }
}
