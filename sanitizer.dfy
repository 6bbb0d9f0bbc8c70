/** The label sanitizer: turns a free-text room name into a metric label by
    keeping ASCII letters and digits, turning each space into an underscore
    and dropping every other rune. A Go `string` ranged over rune by rune is
    modelled as a `seq<char>`, one element per rune. */
module Sanitizer {

  /** The allow-list of runes that survive unchanged. */
  predicate IsAsciiAlnum(c: char) {
    ('a' <= c <= 'z') || ('A' <= c <= 'Z') || ('0' <= c <= '9')
  }

  /** A rune that may appear in a sanitized label. */
  predicate IsLabelChar(c: char) {
    IsAsciiAlnum(c) || c == '_'
  }

  predicate IsLabel(s: seq<char>) {
    forall i :: 0 <= i < |s| ==> IsLabelChar(s[i])
  }

  predicate AllAlnum(s: seq<char>) {
    forall i :: 0 <= i < |s| ==> IsAsciiAlnum(s[i])
  }

  /** What one input rune contributes to the result: itself if it is on the
      allow-list, one underscore if it is a space, otherwise nothing. */
  function Contribution(c: char): (r: seq<char>)
    ensures |r| <= 1 && IsLabel(r)
    ensures |r| == 1 <==> IsAsciiAlnum(c) || c == ' '
    ensures IsAsciiAlnum(c) ==> r == [c]
    ensures c == ' ' ==> r == "_"
  {
    if IsAsciiAlnum(c) then [c]
    else if c == ' ' then "_"
    else []
  }

  /** The sanitized form of `s`, built the way the source builds it: the
      sanitized prefix followed by what the last rune contributes. */
  function Sanitized(s: seq<char>): (r: seq<char>)
    ensures IsLabel(r)
    ensures |r| <= |s|
  {
    if s == [] then [] else Sanitized(s[..|s| - 1]) + Contribution(s[|s| - 1])
  }

  /** sanitizeString: one left-to-right pass appending to `result`. */
  method SanitizeString(str: seq<char>) returns (result: seq<char>)
    ensures result == Sanitized(str)
  {
    result := "";
    var i := 0;
    while i < |str|
      invariant 0 <= i <= |str|
      invariant result == Sanitized(str[..i])
    {
      var c := str[i];
      assert str[..i + 1][..i] == str[..i];
      if IsAsciiAlnum(c) {
        result := result + [c];
      } else if c == ' ' {
        result := result + "_";
      }
      i := i + 1;
    }
    assert str[..|str|] == str;
  }

  /** Sanitizing distributes over concatenation. */
  lemma {:induction false} SanitizedAppend(a: seq<char>, b: seq<char>)
    ensures Sanitized(a + b) == Sanitized(a) + Sanitized(b)
  {
    if b == [] {
      assert a + b == a;
    } else {
      var b' := b[..|b| - 1];
      assert (a + b)[..|a + b| - 1] == a + b';
      assert b[..|b| - 1] == b';
      SanitizedAppend(a, b');
    }
  }

  /** Sanitizing a rune followed by more text: its contribution comes first. */
  lemma SanitizedCons(c: char, s: seq<char>)
    ensures Sanitized([c] + s) == Contribution(c) + Sanitized(s)
  {
    SanitizedAppend([c], s);
    assert [c][..0] == [];
  }

  /** Exact per-rune accounting: each ASCII letter or digit occurs in the
      result as often as in the input, `_` occurs as often as ` ` does in the
      input, and nothing else occurs at all. */
  lemma {:induction false} SanitizedCount(s: seq<char>, c: char)
    ensures multiset(Sanitized(s))[c] ==
      if IsAsciiAlnum(c) then multiset(s)[c]
      else if c == '_' then multiset(s)[' ']
      else 0
  {
    if s != [] {
      var p, x := s[..|s| - 1], s[|s| - 1];
      assert s == p + [x];
      SanitizedCount(p, c);
      assert multiset(s) == multiset(p) + multiset{x};
      assert multiset(Sanitized(s)) == multiset(Sanitized(p)) + multiset(Contribution(x));
    }
  }

  /** Nothing is lost exactly when every rune is a letter, a digit or a space. */
  lemma {:induction false} SanitizedLengthExact(s: seq<char>)
    ensures |Sanitized(s)| == |s| <==> forall i :: 0 <= i < |s| ==> IsAsciiAlnum(s[i]) || s[i] == ' '
  {
    if s != [] {
      var p, x := s[..|s| - 1], s[|s| - 1];
      SanitizedLengthExact(p);
      assert forall i :: 0 <= i < |p| ==> p[i] == s[i];
      if !(IsAsciiAlnum(x) || x == ' ') {
        assert |Sanitized(s)| == |Sanitized(p)| <= |p| < |s|;
      }
    }
  }

  /** The result equals the input exactly when the input is made only of
      ASCII letters and digits. */
  lemma {:induction false} SanitizedIdentity(s: seq<char>)
    ensures Sanitized(s) == s <==> AllAlnum(s)
  {
    if s != [] {
      var p, x := s[..|s| - 1], s[|s| - 1];
      assert s == p + [x];
      SanitizedIdentity(p);
      assert forall i :: 0 <= i < |p| ==> p[i] == s[i];
      if IsAsciiAlnum(x) {
        if Sanitized(s) == s {
          assert Sanitized(p) == Sanitized(s)[..|p|] == p;
        }
      } else if x == ' ' {
        assert Sanitized(s)[|Sanitized(s)| - 1] == '_';
      } else {
        assert |Sanitized(s)| <= |p| < |s|;
      }
    }
  }

  /** Sanitizing twice gives the same as sanitizing once exactly when the
      input holds no space: a space becomes `_`, which the second pass drops. */
  lemma SanitizedIdempotent(s: seq<char>)
    ensures Sanitized(Sanitized(s)) == Sanitized(s) <==> ' ' !in s
  {
    var r := Sanitized(s);
    SanitizedIdentity(r);
    SanitizedCount(s, '_');
    SanitizedCount(s, ' ');
    if ' ' in s {
      assert multiset(r)['_'] > 0;
      assert '_' in r;
      var i :| 0 <= i < |r| && r[i] == '_';
      assert !IsAsciiAlnum(r[i]);
    } else {
      forall i | 0 <= i < |r| ensures IsAsciiAlnum(r[i]) {
        assert r[i] in multiset(r);
      }
    }
  }

  /** The smallest witness that the sanitizer is not idempotent: a single
      space becomes `_`, which a second pass drops. */
  lemma SingleSpaceExample()
    ensures Sanitized(" ") == "_" && Sanitized("_") == ""
  {
    OneRune(' ');
    OneRune('_');
  }

  /** A witness with letters around the space. */
  lemma NotIdempotentExample()
    ensures Sanitized("a b") == "a_b"
    ensures Sanitized("a_b") == "ab"
  {
    ThreeRunes('a', ' ', 'b');
    ThreeRunes('a', '_', 'b');
  }

  lemma OneRune(c: char)
    ensures Sanitized([c]) == Contribution(c)
  {
    assert [c][..0] == [];
  }

  lemma ThreeRunes(x: char, y: char, z: char)
    ensures Sanitized([x, y, z]) == Contribution(x) + Contribution(y) + Contribution(z)
  {
    OneRune(x);
    assert [x, y][..1] == [x];
    assert Sanitized([x, y]) == Contribution(x) + Contribution(y);
    assert [x, y, z][..2] == [x, y];
  }

  /** A run of n spaces becomes a run of n underscores, wherever it stands. */
  lemma {:induction false} SanitizedSpaces(a: seq<char>, n: nat, b: seq<char>)
    ensures Sanitized(a + seq(n, _ => ' ') + b) == Sanitized(a) + seq(n, _ => '_') + Sanitized(b)
  {
    SanitizedAppend(a + seq(n, _ => ' '), b);
    SanitizedAppend(a, seq(n, _ => ' '));
    SpacesRun(n);
  }

  lemma {:induction false} SpacesRun(n: nat)
    ensures Sanitized(seq(n, _ => ' ')) == seq(n, _ => '_')
  {
    if n > 0 {
      SpacesRun(n - 1);
      assert seq(n, _ => ' ')[..n - 1] == seq(n - 1, _ => ' ');
      assert seq(n, _ => '_') == seq(n - 1, _ => '_') + "_";
    }
  }

  /** Punctuation between words is dropped, merging the words. */
  lemma LivingRoomExamples()
    ensures Sanitized("Living Room") == "Living_Room"
    ensures Sanitized("Living-Room") == "LivingRoom"
  {
    TwoWords("Living", ' ', "Room");
    assert "Living" + [' '] + "Room" == "Living Room";
    assert "Living" + Contribution(' ') + "Room" == "Living_Room";
    TwoWords("Living", '-', "Room");
    assert "Living" + ['-'] + "Room" == "Living-Room";
    assert "Living" + Contribution('-') + "Room" == "LivingRoom";
  }

  lemma TwoWords(w1: seq<char>, sep: char, w2: seq<char>)
    requires AllAlnum(w1) && AllAlnum(w2)
    ensures Sanitized(w1 + [sep] + w2) == w1 + Contribution(sep) + w2
  {
    SanitizedAppend(w1 + [sep], w2);
    SanitizedAppend(w1, [sep]);
    SanitizedIdentity(w1);
    SanitizedIdentity(w2);
    assert [sep][..0] == [];
  }
}
