/**
 * The string built-ins the ingestion code relies on: `str.split()` with no
 * argument (split on runs of whitespace, drop empty tokens), `" ".join(...)`
 * and `str.replace` of one character.
 */
module PyText {

  /** The characters `str.split()` treats as whitespace (`str.isspace()`). */
  predicate IsSpace(c: char)
  {
    || ('\U{0009}' <= c <= '\U{000D}')
    || ('\U{001C}' <= c <= '\U{0020}')
    || c == '\U{0085}' || c == '\U{00A0}' || c == '\U{1680}'
    || ('\U{2000}' <= c <= '\U{200A}')
    || c == '\U{2028}' || c == '\U{2029}' || c == '\U{202F}' || c == '\U{205F}' || c == '\U{3000}'
  }

  predicate NoSpace(s: string)
  {
    forall k :: 0 <= k < |s| ==> !IsSpace(s[k])
  }

  predicate AllSpace(s: string)
  {
    forall k :: 0 <= k < |s| ==> IsSpace(s[k])
  }

  /** Length of the leading run of non-whitespace characters. */
  function TokenLen(s: string): (n: nat)
    ensures n <= |s|
  {
    if s == [] || IsSpace(s[0]) then 0 else 1 + TokenLen(s[1..])
  }

  /** The leading token holds no whitespace and ends at whitespace or at the end. */
  lemma {:induction false} TokenLenStops(s: string)
    ensures NoSpace(s[..TokenLen(s)])
    ensures TokenLen(s) < |s| ==> IsSpace(s[TokenLen(s)])
    ensures s != [] && !IsSpace(s[0]) ==> TokenLen(s) > 0
    decreases |s|
  {
    if s != [] && !IsSpace(s[0]) {
      TokenLenStops(s[1..]);
      var n := TokenLen(s);
      forall k | 0 <= k < n ensures !IsSpace(s[..n][k]) {
        if k > 0 {
          assert s[..n][k] == s[1..][..n - 1][k - 1];
        }
      }
      if n < |s| {
        assert s[n] == s[1..][n - 1];
      }
    }
  }

  /** `s.split()`: the maximal runs of non-whitespace characters, in order. */
  function Split(s: string): seq<string>
    decreases |s|
  {
    if s == [] then []
    else if IsSpace(s[0]) then Split(s[1..])
    else
      var n := TokenLen(s);
      [s[..n]] + Split(s[n..])
  }

  /** `len(s.split())`, the word count stored with every message. */
  function WordCount(s: string): nat
  {
    |Split(s)|
  }

  /** `" ".join(parts)` */
  function JoinSpace(parts: seq<string>): string
  {
    if parts == [] then ""
    else if |parts| == 1 then parts[0]
    else parts[0] + " " + JoinSpace(parts[1..])
  }

  /** `s.replace(c, rep)` for a one-character pattern. */
  function ReplaceChar(s: string, c: char, rep: string): (r: string)
    ensures c !in s ==> r == s
  {
    if s == [] then []
    else (if s[0] == c then rep else [s[0]]) + ReplaceChar(s[1..], c, rep)
  }

  /** Replacing distributes over concatenation. */
  lemma {:induction false} ReplaceCharAppend(s: string, t: string, c: char, rep: string)
    ensures ReplaceChar(s + t, c, rep) == ReplaceChar(s, c, rep) + ReplaceChar(t, c, rep)
    decreases |s|
  {
    if s == [] {
      assert s + t == t;
    } else {
      assert (s + t)[0] == s[0] && (s + t)[1..] == s[1..] + t;
      ReplaceCharAppend(s[1..], t, c, rep);
    }
  }

  /**
   * Every occurrence is replaced: with a replacement free of `c`, none is left,
   * and every other character is kept, in order.
   */
  lemma {:induction false} ReplaceCharRemoves(s: string, c: char, rep: string)
    requires c !in rep
    ensures c !in ReplaceChar(s, c, rep)
    ensures forall x :: x != c && x !in rep ==> (x in ReplaceChar(s, c, rep) <==> x in s)
    decreases |s|
  {
    if s != [] {
      ReplaceCharRemoves(s[1..], c, rep);
      assert s == [s[0]] + s[1..];
    }
  }

  /** One character is replaced by `rep` when it is `c` and kept otherwise. */
  lemma ReplaceCharOne(x: char, c: char, rep: string)
    ensures ReplaceChar([x], c, rep) == if x == c then rep else [x]
  {
    assert [x][1..] == [];
  }

  /** The tokens of a list of strings, one after another. */
  function SplitAll(parts: seq<string>): seq<string>
  {
    if parts == [] then [] else Split(parts[0]) + SplitAll(parts[1..])
  }

  /** The word counts of a list of strings, added up. */
  function SumWords(parts: seq<string>): nat
  {
    if parts == [] then 0 else WordCount(parts[0]) + SumWords(parts[1..])
  }

  /** The non-whitespace characters of `s`, in order. */
  function Squeeze(s: string): string
  {
    if s == [] then [] else (if IsSpace(s[0]) then [] else [s[0]]) + Squeeze(s[1..])
  }

  function Concat(tokens: seq<string>): string
  {
    if tokens == [] then [] else tokens[0] + Concat(tokens[1..])
  }

  /** `split()` yields nothing exactly when the string is whitespace only. */
  lemma {:induction false} SplitEmptyIffAllSpace(s: string)
    ensures Split(s) == [] <==> AllSpace(s)
    decreases |s|
  {
    if s != [] {
      if IsSpace(s[0]) {
        SplitEmptyIffAllSpace(s[1..]);
        if AllSpace(s[1..]) {
          forall k | 0 <= k < |s| ensures IsSpace(s[k]) {
            if k > 0 { assert s[k] == s[1..][k - 1]; }
          }
        }
      }
    }
  }

  /** Every token `split()` yields is non-empty and holds no whitespace. */
  lemma {:induction false} SplitTokens(s: string)
    ensures forall k :: 0 <= k < |Split(s)| ==> Split(s)[k] != [] && NoSpace(Split(s)[k])
    decreases |s|
  {
    if s != [] {
      if IsSpace(s[0]) {
        SplitTokens(s[1..]);
      } else {
        var n := TokenLen(s);
        TokenLenStops(s);
        SplitTokens(s[n..]);
        var r := Split(s);
        assert r == [s[..n]] + Split(s[n..]);
        forall k | 0 <= k < |r| ensures r[k] != [] && NoSpace(r[k]) {
          if k > 0 {
            assert r[k] == Split(s[n..])[k - 1];
          }
        }
      }
    }
  }

  /** The tokens of `s` put back together are `s` without its whitespace. */
  lemma {:induction false} SplitKeepsEveryNonSpace(s: string)
    ensures Concat(Split(s)) == Squeeze(s)
    decreases |s|
  {
    if s != [] {
      if IsSpace(s[0]) {
        SplitKeepsEveryNonSpace(s[1..]);
      } else {
        var n := TokenLen(s);
        TokenLenStops(s);
        SplitKeepsEveryNonSpace(s[n..]);
        assert s == s[..n] + s[n..];
        SqueezeAppend(s[..n], s[n..]);
        SqueezeNoSpace(s[..n]);
        assert Split(s) == [s[..n]] + Split(s[n..]);
      }
    }
  }

  lemma {:induction false} SqueezeAppend(a: string, b: string)
    ensures Squeeze(a + b) == Squeeze(a) + Squeeze(b)
    decreases |a|
  {
    if a != [] {
      assert (a + b)[1..] == a[1..] + b;
      SqueezeAppend(a[1..], b);
    } else {
      assert a + b == b;
    }
  }

  lemma {:induction false} SqueezeNoSpace(s: string)
    requires NoSpace(s)
    ensures Squeeze(s) == s
    decreases |s|
  {
    if s != [] {
      SqueezeNoSpace(s[1..]);
    }
  }

  /** A token that ends at a whitespace character ends there whatever follows. */
  lemma {:induction false} TokenLenStopsAtSpace(a: string, b: string)
    requires b != [] && IsSpace(b[0])
    ensures TokenLen(a + b) == TokenLen(a)
    decreases |a|
  {
    if a == [] {
      assert a + b == b;
    } else if !IsSpace(a[0]) {
      assert (a + b)[1..] == a[1..] + b;
      TokenLenStopsAtSpace(a[1..], b);
    }
  }

  /** Splitting where whitespace begins gives the tokens before it, then the tokens after it. */
  lemma {:induction false} SplitAtSpace(x: string, y: string)
    requires y != [] && IsSpace(y[0])
    ensures Split(x + y) == Split(x) + Split(y)
    decreases |x|
  {
    if x == [] {
      assert x + y == y;
    } else if IsSpace(x[0]) {
      assert (x + y)[1..] == x[1..] + y;
      SplitAtSpace(x[1..], y);
    } else {
      SplitAtSpace(x[TokenLen(x)..], y);
      SplitAtToken(x, y);
    }
  }

  /** The step of `SplitAtSpace` for a string that starts with a token. */
  lemma SplitAtToken(x: string, y: string)
    requires x != [] && !IsSpace(x[0]) && y != [] && IsSpace(y[0])
    requires Split(x[TokenLen(x)..] + y) == Split(x[TokenLen(x)..]) + Split(y)
    ensures Split(x + y) == Split(x) + Split(y)
  {
    var n := TokenLen(x);
    SplitFirstToken(x, y);
    assert Split(x) == [x[..n]] + Split(x[n..]);
    AppendAssoc([x[..n]], Split(x[n..]), Split(y));
  }

  /** The first token of `x + y` is that of `x` when `y` starts with whitespace. */
  lemma SplitFirstToken(x: string, y: string)
    requires x != [] && !IsSpace(x[0]) && y != [] && IsSpace(y[0])
    ensures Split(x + y) == [x[..TokenLen(x)]] + Split(x[TokenLen(x)..] + y)
  {
    var n := TokenLen(x);
    var s := x + y;
    TokenLenStopsAtSpace(x, y);
    assert s[0] == x[0];
    assert TokenLen(s) == n;
    assert Split(s) == [s[..n]] + Split(s[n..]);
    assert s[..n] == x[..n];
    assert s[n..] == x[n..] + y;
  }

  lemma AppendAssoc<T>(a: seq<T>, b: seq<T>, c: seq<T>)
    ensures a + (b + c) == (a + b) + c
  {
  }

  /** Splitting two strings glued by one space gives the tokens of each, in turn. */
  lemma SplitAroundSpace(a: string, b: string)
    ensures Split(a + " " + b) == Split(a) + Split(b)
  {
    SplitAtSpace(a, " " + b);
    assert a + " " + b == a + (" " + b);
    assert (" " + b)[1..] == b;
  }

  /** The tokens of `" ".join(parts)` are the tokens of the parts. */
  lemma {:induction false} SplitJoinSpace(parts: seq<string>)
    ensures Split(JoinSpace(parts)) == SplitAll(parts)
    decreases |parts|
  {
    if |parts| == 1 {
      assert SplitAll(parts) == Split(parts[0]) + SplitAll([]);
    } else if |parts| > 1 {
      SplitJoinSpace(parts[1..]);
      SplitAroundSpace(parts[0], JoinSpace(parts[1..]));
    }
  }

  lemma {:induction false} SplitAllLength(parts: seq<string>)
    ensures |SplitAll(parts)| == SumWords(parts)
    decreases |parts|
  {
    if parts != [] {
      SplitAllLength(parts[1..]);
    }
  }

  /** The word count of parts joined by spaces is the sum of their word counts. */
  lemma WordCountOfJoin(parts: seq<string>)
    ensures WordCount(JoinSpace(parts)) == SumWords(parts)
  {
    SplitJoinSpace(parts);
    SplitAllLength(parts);
  }

  /** Adding one more string to the list adds its word count. */
  lemma {:induction false} SumWordsAppend(parts: seq<string>, s: string)
    ensures SumWords(parts + [s]) == SumWords(parts) + WordCount(s)
    decreases |parts|
  {
    if parts == [] {
      assert [s][1..] == [];
    } else {
      assert (parts + [s])[1..] == parts[1..] + [s];
      SumWordsAppend(parts[1..], s);
    }
  }
}
