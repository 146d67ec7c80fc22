/** Whitespace splitting and joining as Python's `str.split()` and `" ".join` do it. */
module Text {

  /** The characters for which Python's `str.isspace` holds. */
  predicate IsSpace(c: char) {
    || '\U{0009}' <= c <= '\U{000D}'
    || '\U{001C}' <= c <= '\U{0020}'
    || c == '\U{0085}' || c == '\U{00A0}' || c == '\U{1680}'
    || '\U{2000}' <= c <= '\U{200A}'
    || c == '\U{2028}' || c == '\U{2029}' || c == '\U{202F}' || c == '\U{205F}' || c == '\U{3000}'
  }

  /** Length of the longest prefix without whitespace. */
  function WordLen(s: string): (n: nat)
    ensures n <= |s|
    ensures forall i :: 0 <= i < n ==> !IsSpace(s[i])
    ensures n < |s| ==> IsSpace(s[n])
  {
    if s == "" || IsSpace(s[0]) then 0 else 1 + WordLen(s[1..])
  }

  /** `s.split()`: the maximal runs of non-whitespace characters, in order. */
  function Words(s: string): seq<string>
    decreases |s|
  {
    if s == "" then []
    else if IsSpace(s[0]) then Words(s[1..])
    else var n := WordLen(s); [s[..n]] + Words(s[n..])
  }

  /** `" ".join(ws)` */
  function Join(ws: seq<string>): string {
    if ws == [] then "" else if |ws| == 1 then ws[0] else ws[0] + " " + Join(ws[1..])
  }

  predicate IsWord(w: string) {
    w != "" && forall i :: 0 <= i < |w| ==> !IsSpace(w[i])
  }

  /** Positions at which a word begins: an independent way to count words. */
  function WordStarts(s: string, afterSpace: bool): nat {
    if s == "" then 0
    else (if afterSpace && !IsSpace(s[0]) then 1 else 0) + WordStarts(s[1..], IsSpace(s[0]))
  }

  lemma {:induction false} WordsAreWords(s: string)
    ensures forall w :: w in Words(s) ==> IsWord(w)
    decreases |s|
  {
    if s != "" {
      if IsSpace(s[0]) {
        WordsAreWords(s[1..]);
      } else {
        WordsAreWords(s[WordLen(s)..]);
      }
    }
  }

  lemma {:induction false} WordLenIs(s: string, n: nat)
    requires n <= |s| && (forall i :: 0 <= i < n ==> !IsSpace(s[i])) && (n < |s| ==> IsSpace(s[n]))
    ensures WordLen(s) == n
  {
    if n > 0 {
      WordLenIs(s[1..], n - 1);
    }
  }

  /** Splitting distributes over concatenation at a whitespace character. */
  lemma {:induction false} SplitAtSpace(a: string, c: char, b: string)
    requires IsSpace(c)
    ensures Words(a + [c] + b) == Words(a) + Words(b)
    decreases |a|
  {
    var t := a + [c] + b;
    if a == "" {
      assert t[1..] == b;
    } else if IsSpace(a[0]) {
      assert t[1..] == a[1..] + [c] + b;
      SplitAtSpace(a[1..], c, b);
    } else {
      var n := WordLen(a);
      var rest := a[n..] + [c] + b;
      SplitAtSpace(a[n..], c, b);
      WordLenIs(t, n);
      assert t[n..] == rest;
      assert t[..n] == a[..n];
      assert Words(t) == [a[..n]] + (Words(a[n..]) + Words(b));
    }
  }

  lemma SingleWord(w: string)
    requires IsWord(w)
    ensures Words(w) == [w]
  {
    assert WordLen(w) == |w|;
    assert w[..|w|] == w && w[|w|..] == "";
  }

  /** Printing then splitting is the identity on sequences of words. */
  lemma {:induction false} SplitJoin(ws: seq<string>)
    requires forall w :: w in ws ==> IsWord(w)
    ensures Words(Join(ws)) == ws
  {
    if |ws| == 1 {
      SingleWord(ws[0]);
    } else if |ws| > 1 {
      SingleWord(ws[0]);
      SplitAtSpace(ws[0], ' ', Join(ws[1..]));
      SplitJoin(ws[1..]);
    }
  }

  lemma {:induction false} StartsSkipsWord(s: string, n: nat)
    requires n <= |s| && forall i :: 0 <= i < n ==> !IsSpace(s[i])
    ensures WordStarts(s, false) == WordStarts(s[n..], false)
    decreases n
  {
    if n > 0 {
      assert s[1..][n - 1..] == s[n..];
      StartsSkipsWord(s[1..], n - 1);
    }
  }

  /** The number of words is the number of word beginnings. */
  lemma {:induction false} CountWords(s: string)
    ensures |Words(s)| == WordStarts(s, true)
    decreases |s|
  {
    if s != "" {
      if IsSpace(s[0]) {
        CountWords(s[1..]);
      } else {
        var n := WordLen(s);
        assert s[1..][n - 1..] == s[n..];
        StartsSkipsWord(s[1..], n - 1);
        CountWords(s[n..]);
        if n < |s| {
          assert IsSpace(s[n..][0]);
        }
      }
    }
  }
}
