/** String helpers behind the source's key normalisation:
    `toLowerCase()` restricted to ASCII, and `.replace(/ /g, '')`. */
module Text {

  predicate IsUpperAscii(c: char)
  {
    'A' <= c <= 'Z'
  }

  /** ASCII lowercasing of one character; every other character is kept. */
  function LowerChar(c: char): (d: char)
    ensures !IsUpperAscii(d)
    ensures !IsUpperAscii(c) ==> d == c
    ensures IsUpperAscii(c) ==> d as int - c as int == 'a' as int - 'A' as int
  {
    if IsUpperAscii(c) then (c as int - 'A' as int + 'a' as int) as char else c
  }

  predicate NoUpperAscii(s: string)
  {
    forall i :: 0 <= i < |s| ==> !IsUpperAscii(s[i])
  }

  /** `s.toLowerCase()` on ASCII input: position by position lowercasing. */
  function ToLower(s: string): (r: string)
    ensures |r| == |s|
    ensures NoUpperAscii(r)
    ensures forall i :: 0 <= i < |s| && !IsUpperAscii(s[i]) ==> r[i] == s[i]
    ensures forall i :: 0 <= i < |s| && IsUpperAscii(s[i]) ==>
      r[i] as int == s[i] as int + ('a' as int - 'A' as int)
  {
    seq(|s|, i requires 0 <= i < |s| => LowerChar(s[i]))
  }

  /** Lowercasing changes nothing on a string without upper-case letters. */
  lemma ToLowerFixesLower(s: string)
    requires NoUpperAscii(s)
    ensures ToLower(s) == s
  {
  }

  /** Lowering twice is lowering once. */
  lemma ToLowerIdempotent(s: string)
    ensures ToLower(ToLower(s)) == ToLower(s)
  {
    ToLowerFixesLower(ToLower(s));
  }

  /** Lowercasing maps a space to a space and nothing else to a space. */
  lemma ToLowerKeepsSpaces(s: string)
    ensures ' ' in ToLower(s) <==> ' ' in s
  {
    if ' ' in s {
      var i :| 0 <= i < |s| && s[i] == ' ';
      assert ToLower(s)[i] == ' ';
    }
    if ' ' in ToLower(s) {
      var i :| 0 <= i < |s| && ToLower(s)[i] == ' ';
      assert s[i] == ' ';
    }
  }

  /** `s.replace(/ /g, '')`: every space removed, every other character
      kept in order. */
  function RemoveSpaces(s: string): (r: string)
    ensures ' ' !in r
    ensures |r| <= |s|
    ensures forall c :: c != ' ' ==> (c in r <==> c in s)
  {
    if s == [] then []
    else if s[0] == ' ' then RemoveSpaces(s[1..])
    else [s[0]] + RemoveSpaces(s[1..])
  }

  lemma {:induction false} RemoveSpacesAppend(a: string, b: string)
    ensures RemoveSpaces(a + b) == RemoveSpaces(a) + RemoveSpaces(b)
  {
    if a == [] {
      assert a + b == b;
    } else {
      assert (a + b)[1..] == a[1..] + b;
      RemoveSpacesAppend(a[1..], b);
    }
  }

  /** Removing spaces from a string that has none is the identity. */
  lemma {:induction false} RemoveSpacesNoSpace(s: string)
    requires ' ' !in s
    ensures RemoveSpaces(s) == s
  {
    if s != [] {
      RemoveSpacesNoSpace(s[1..]);
    }
  }

  /** The normalisation the source applies before using an enumeration
      value as a translation key: lowercase, then drop every space. */
  function NormalizeKey(s: string): (r: string)
    ensures ' ' !in r
    ensures NoUpperAscii(r)
    ensures |r| <= |s|
  {
    var lower := ToLower(s);
    var r := RemoveSpaces(lower);
    assert NoUpperAscii(r) by {
      forall i | 0 <= i < |r|
        ensures !IsUpperAscii(r[i])
      {
        assert r[i] in r;
        assert r[i] in lower;
      }
    }
    r
  }

  /** Normalising a string is idempotent. */
  lemma NormalizeKeyIdempotent(s: string)
    ensures NormalizeKey(NormalizeKey(s)) == NormalizeKey(s)
  {
    var k := NormalizeKey(s);
    ToLowerFixesLower(k);
    RemoveSpacesNoSpace(k);
  }

  /** A one-word value normalises to its lowercase form. */
  lemma NormalizeOneWord(s: string, w: string)
    requires ToLower(s) == w
    requires ' ' !in w
    ensures NormalizeKey(s) == w
  {
    RemoveSpacesNoSpace(w);
  }

  /** A two-word value normalises to the concatenation of its lowercase words. */
  lemma NormalizeTwoWords(s: string, a: string, b: string)
    requires ToLower(s) == a + " " + b
    requires ' ' !in a && ' ' !in b
    ensures NormalizeKey(s) == a + b
  {
    RemoveSpacesAppend(a + " ", b);
    RemoveSpacesAppend(a, " ");
    RemoveSpacesNoSpace(a);
    RemoveSpacesNoSpace(b);
  }
}
