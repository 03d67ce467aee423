/** Introduction_task2/task2_part1: counting the words of a text, case-insensitively. */
module WordFreq {
  import opened GoStrings
  import Seqs

  /** The words freqCounter counts: the fields of the lower-cased text. Joined, they are that text
      with its white space taken out. */
  function Words(s: string): (ws: seq<string>)
    ensures forall k :: 0 <= k < |ws| ==> |ws[k]| > 0
    ensures Concat(ws) == Unspaced(ToLower(s))
  {
    FieldsCover(ToLower(s));
    Fields(ToLower(s))
  }

  /** The map the counting loop builds, one increment per word in order. */
  function Tally(words: seq<string>): (m: map<string, int>)
    ensures forall w :: w in m ==> 1 <= m[w] <= |words|
    decreases |words|
  {
    if |words| == 0 then map[]
    else
      var m := Tally(words[..|words| - 1]);
      var w := words[|words| - 1];
      m[w := (if w in m then m[w] else 0) + 1]
  }

  /** The tally has exactly the words as keys, and each key counts that word's occurrences. */
  lemma {:induction false} TallyCounts(words: seq<string>)
    ensures forall w :: w in Tally(words) <==> w in words
    ensures forall w :: w in Tally(words) ==> Tally(words)[w] == multiset(words)[w]
    decreases |words|
  {
    if |words| > 0 {
      var init := words[..|words| - 1];
      TallyCounts(init);
      assert words == init + [words[|words| - 1]];
    }
  }

  /** freqCounter. */
  method FreqCounter(s: string) returns (freq: map<string, int>)
    ensures freq == Tally(Words(s))
    ensures forall w :: w in freq <==> w in Words(s)
    ensures forall w :: w in freq ==> freq[w] == multiset(Words(s))[w] && freq[w] >= 1
  {
    freq := map[];
    var words := Fields(ToLower(s));
    for n := 0 to |words|
      invariant freq == Tally(words[..n])
    {
      var word := words[n];
      assert words[..n + 1][..n] == words[..n];
      freq := freq[word := (if word in freq then freq[word] else 0) + 1];
    }
    assert words[..|words|] == words;
    TallyCounts(words);
  }

  /** Every counted word is non-empty and holds no white space and no upper-case letter. */
  lemma KeysAreLowerWords(s: string, w: string)
    requires w in Tally(Words(s))
    ensures |w| > 0
    ensures forall i :: 0 <= i < |w| ==> !IsSpace(w[i]) && !IsUpper(w[i])
  {
    TallyCounts(Words(s));
    FieldsFromText(ToLower(s));
  }

  /** Nothing but white space is dropped: every other rune of the text, lower-cased, lies in some
      counted word. */
  lemma EveryRuneCounted(s: string, i: nat)
    requires i < |s| && !IsSpace(s[i])
    ensures exists w :: w in Tally(Words(s)) && LowerRune(s[i]) in w
  {
    var t := ToLower(s);
    assert t[i] == LowerRune(s[i]) && !IsSpace(t[i]);
    FieldsHoldEveryRune(t, i);
    var k :| 0 <= k < |Fields(t)| && t[i] in Fields(t)[k];
    TallyCounts(Words(s));
    assert Fields(t)[k] in Tally(Words(s));
  }

  /** Every rune of every field comes from the text. */
  lemma {:induction false} FieldsFromText(s: string)
    ensures forall k, i :: 0 <= k < |Fields(s)| && 0 <= i < |Fields(s)[k]| ==> Fields(s)[k][i] in s
    decreases |s|
  {
    if |s| == 0 {
    } else if IsSpace(s[0]) {
      FieldsFromText(s[1..]);
    } else {
      var n := WordLen(s);
      FieldsFromText(s[n..]);
      var r := Fields(s);
      assert r == [s[..n]] + Fields(s[n..]);
      forall k, i | 0 <= k < |r| && 0 <= i < |r[k]|
        ensures r[k][i] in s
      {
        if k == 0 {
          assert r[k][i] == s[i];
        } else {
          assert r[k] == Fields(s[n..])[k - 1];
          assert r[k][i] in s[n..];
        }
      }
    }
  }

  /** The counts added up in a given key order. */
  function SumCounts(m: map<string, int>, order: seq<string>): int
    requires forall i :: 0 <= i < |order| ==> order[i] in m
    decreases |order|
  {
    if |order| == 0 then 0 else m[order[0]] + SumCounts(m, order[1..])
  }

  /** Adding up the occurrence counts of a multiset over a duplicate-free list of all its elements gives
      its size. */
  lemma {:induction false} MultisetCountsSum(ms: multiset<string>, m: map<string, int>, order: seq<string>)
    requires forall i :: 0 <= i < |order| ==> order[i] in m && m[order[i]] == ms[order[i]]
    requires forall w :: w in ms ==> w in order
    requires forall i, j :: 0 <= i < j < |order| ==> order[i] != order[j]
    ensures SumCounts(m, order) == |ms|
    decreases |order|
  {
    if |order| == 0 {
      assert forall w :: w !in ms;
      assert ms == multiset{};
    } else {
      var w := order[0];
      var rest := ms[w := 0];
      assert |ms| == |rest| + ms[w] by {
        assert ms == rest + multiset{}[w := ms[w]];
      }
      forall i | 0 <= i < |order[1..]|
        ensures order[1..][i] in m && m[order[1..][i]] == rest[order[1..][i]]
      {
        assert order[1..][i] == order[i + 1] != w;
      }
      forall x | x in rest
        ensures x in order[1..]
      {
        assert x in order && x != w;
      }
      MultisetCountsSum(rest, m, order[1..]);
    }
  }

  /** The counts add up to the number of words, whichever order the map is walked in. */
  lemma CountsSumToWords(s: string, order: seq<string>)
    requires Seqs.IsIterationOrder(Tally(Words(s)), order)
    ensures SumCounts(Tally(Words(s)), order) == |Words(s)|
  {
    var words := Words(s);
    TallyCounts(words);
    assert |multiset(words)| == |words|;
    MultisetCountsSum(multiset(words), Tally(words), order);
  }

  /** A text made only of white space (the empty text included) gives an empty map. */
  lemma BlankTextIsEmpty(s: string)
    requires forall i :: 0 <= i < |s| ==> IsSpace(s[i])
    ensures Tally(Words(s)) == map[]
  {
    FieldsOfBlank(ToLower(s));
  }

  predicate IsWord(w: string) {
    |w| > 0 && forall i :: 0 <= i < |w| ==> !IsSpace(w[i])
  }

  lemma {:induction false} WordEnds(s: string, n: nat)
    requires n <= |s|
    requires forall i :: 0 <= i < n ==> !IsSpace(s[i])
    requires n < |s| ==> IsSpace(s[n])
    ensures WordLen(s) == n
  {
    if n > 0 {
      WordEnds(s[1..], n - 1);
    }
  }

  /** A word followed by a space, or by nothing, is the first field. */
  lemma FieldsOfWord(w: string, rest: string)
    requires IsWord(w)
    requires |rest| > 0 ==> IsSpace(rest[0])
    ensures Fields(w + rest) == [w] + Fields(rest)
  {
    var s := w + rest;
    WordEnds(s, |w|);
    assert s[..|w|] == w && s[|w|..] == rest;
  }

  /** A leading space is skipped. */
  lemma FieldsOfSpace(rest: string)
    ensures Fields(" " + rest) == Fields(rest)
  {
    assert (" " + rest)[1..] == rest;
  }

  /** Words separated by single spaces are the fields, in order. */
  lemma FieldsOfThreeWords(a: string, b: string, c: string)
    requires IsWord(a) && IsWord(b) && IsWord(c)
    ensures Fields(a + (" " + (b + (" " + c)))) == [a, b, c]
  {
    assert Fields(c) == [c] by {
      FieldsOfWord(c, "");
      assert c + "" == c;
    }
    var r2 := " " + c;
    assert Fields(r2) == [c] by { FieldsOfSpace(c); }
    assert Fields(b + r2) == [b, c] by { FieldsOfWord(b, r2); }
    var r1 := " " + (b + r2);
    assert Fields(r1) == [b, c] by { FieldsOfSpace(b + r2); }
    assert Fields(a + r1) == [a, b, c] by { FieldsOfWord(a, r1); }
  }

  /** The three words of the example text. */
  lemma ExampleWords()
    ensures Words("Hello world hello") == ["hello", "world", "hello"]
  {
    assert ToLower("Hello world hello") == "hello" + (" " + ("world" + (" " + "hello")));
    FieldsOfThreeWords("hello", "world", "hello");
  }

  /** Case and spacing make no difference: "Hello world hello" counts hello twice and world once. */
  lemma ExampleText()
    ensures Tally(Words("Hello world hello")) == map["hello" := 2, "world" := 1]
  {
    ExampleWords();
    ExampleTally();
  }

  lemma ExampleTally()
    ensures Tally(["hello", "world", "hello"]) == map["hello" := 2, "world" := 1]
  {
    var w1, w2, ws := ["hello"], ["hello", "world"], ["hello", "world", "hello"];
    assert Tally(w1) == map["hello" := 1] by {
      assert w1[..0] == [];
    }
    assert Tally(w2) == map["hello" := 1, "world" := 1] by {
      assert w2[..1] == w1;
    }
    assert Tally(ws) == map["hello" := 2, "world" := 1] by {
      assert ws[..2] == w2;
    }
  }
}
