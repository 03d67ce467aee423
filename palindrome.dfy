/** Introduction_task2/task2_part2: reversing a string rune by rune, and the palindrome check built on it. */
module Palindrome {
  import opened GoStrings

  /** The reference reversal. */
  function Reverse(s: string): (r: string)
    ensures |r| == |s|
    decreases |s|
  {
    if |s| == 0 then "" else Reverse(s[1..]) + [s[0]]
  }

  lemma {:induction false} ReverseAt(s: string)
    ensures forall i :: 0 <= i < |s| ==> Reverse(s)[i] == s[|s| - 1 - i]
    decreases |s|
  {
    if |s| > 0 {
      ReverseAt(s[1..]);
    }
  }

  /** Reversing twice gives the string back. */
  lemma ReverseReverse(s: string)
    ensures Reverse(Reverse(s)) == s
  {
    ReverseAt(s);
    ReverseAt(Reverse(s));
  }

  /** reverseString: swaps runes from both ends toward the middle. */
  method ReverseString(s: string) returns (r: string)
    ensures r == Reverse(s)
  {
    var runes := new char[|s|](k requires 0 <= k < |s| => s[k]);
    if |s| > 0 {
      var i, j := 0, |s| - 1;
      while i < j
        invariant 0 <= i <= j + 1 <= |s|
        invariant i + j == |s| - 1
        invariant forall k :: 0 <= k < i ==> runes[k] == s[|s| - 1 - k]
        invariant forall k :: j < k < |s| ==> runes[k] == s[|s| - 1 - k]
        invariant forall k :: i <= k <= j ==> runes[k] == s[k]
      {
        runes[i], runes[j] := runes[j], runes[i];
        i, j := i + 1, j - 1;
      }
    }
    r := runes[..];
    ReverseAt(s);
  }

  /** What ispalindrom compares: the lower-cased string with its spaces removed. */
  function Normalize(s: string): (t: string)
    ensures multiset(t) == multiset(ToLower(s))[' ' := 0]
  {
    RemoveRune(ToLower(s), ' ')
  }

  /** A string reads the same in both directions exactly when it equals its reversal. */
  lemma PalindromeMirror(t: string)
    ensures t == Reverse(t) <==> forall i :: 0 <= i < |t| ==> t[i] == t[|t| - 1 - i]
  {
    ReverseAt(t);
  }

  /** ispalindrom. */
  method IsPalindrome(s: string) returns (b: bool)
    ensures b <==> Normalize(s) == Reverse(Normalize(s))
    ensures b <==> forall i :: 0 <= i < |Normalize(s)| ==> Normalize(s)[i] == Normalize(s)[|Normalize(s)| - 1 - i]
  {
    var t := ToLower(s);
    t := RemoveRune(t, ' ');
    var rev := ReverseString(t);
    b := t == rev;
    PalindromeMirror(t);
  }

  /** Spaces are ignored: inserting one anywhere never changes the answer. */
  lemma NormalizeIgnoresSpaces(s: string, i: nat)
    requires i <= |s|
    ensures Normalize(s[..i] + " " + s[i..]) == Normalize(s)
  {
    var x, y := s[..i], s[i..];
    assert x + " " + y == x + (" " + y);
    NormalizeConcat(x, " " + y);
    NormalizeConcat(" ", y);
    assert Normalize(" ") == "" by {
      assert ToLower(" ") == " ";
    }
    assert s == x + y;
    NormalizeConcat(x, y);
  }

  lemma NormalizeConcat(a: string, b: string)
    ensures Normalize(a + b) == Normalize(a) + Normalize(b)
  {
    ToLowerConcat(a, b);
    RemoveRuneSplit(ToLower(a), ToLower(b));
  }

  lemma ToLowerConcat(a: string, b: string)
    ensures ToLower(a + b) == ToLower(a) + ToLower(b)
  {
  }

  lemma {:induction false} RemoveRuneSplit(a: string, b: string)
    ensures RemoveRune(a + b, ' ') == RemoveRune(a, ' ') + RemoveRune(b, ' ')
    decreases |a|
  {
    if |a| > 0 {
      assert (a + b)[1..] == a[1..] + b;
      RemoveRuneSplit(a[1..], b);
    } else {
      assert a + b == b;
    }
  }

  /** Case is ignored: lower-casing first never changes the answer. */
  lemma NormalizeIgnoresCase(s: string)
    ensures Normalize(ToLower(s)) == Normalize(s)
  {
    assert ToLower(ToLower(s)) == ToLower(s);
  }

  lemma {:induction false} RemoveAbsent(w: string, c: char)
    requires c !in w
    ensures RemoveRune(w, c) == w
  {
    if |w| > 0 {
      RemoveAbsent(w[1..], c);
    }
  }

  /** Removing the spaces of `pre + " " + w`, where `w` has none. */
  lemma RemoveSpaceBefore(pre: string, w: string)
    requires ' ' !in w
    ensures RemoveRune(pre + " " + w, ' ') == RemoveRune(pre, ' ') + w
  {
    var sw := " " + w;
    assert pre + " " + w == pre + sw;
    RemoveRuneSplit(pre, sw);
    assert RemoveRune(sw, ' ') == w by {
      assert sw[0] == ' ' && sw[1..] == w;
      RemoveAbsent(w, ' ');
    }
  }

  lemma RemoveSpacesOfSevenWords(a: string, b: string, c: string, d: string, e: string, f: string, g: string)
    requires ' ' !in a && ' ' !in b && ' ' !in c && ' ' !in d && ' ' !in e && ' ' !in f && ' ' !in g
    ensures RemoveRune(a + " " + b + " " + c + " " + d + " " + e + " " + f + " " + g, ' ')
            == a + b + c + d + e + f + g
  {
    RemoveAbsent(a, ' ');
    RemoveSpaceBefore(a, b);
    RemoveSpaceBefore(a + " " + b, c);
    RemoveSpaceBefore(a + " " + b + " " + c, d);
    RemoveSpaceBefore(a + " " + b + " " + c + " " + d, e);
    RemoveSpaceBefore(a + " " + b + " " + c + " " + d + " " + e, f);
    RemoveSpaceBefore(a + " " + b + " " + c + " " + d + " " + e + " " + f, g);
  }

  lemma HelloNormal()
    ensures Normalize("hello") == "hello"
  {
    assert ToLower("hello") == "hello";
    RemoveAbsent("hello", ' ');
  }

  lemma HelloReversed()
    ensures Reverse("hello") != "hello"
  {
    ReverseAt("hello");
  }

  /** "hello" is not a palindrome. */
  lemma HelloIsNot()
    ensures Normalize("hello") != Reverse(Normalize("hello"))
  {
    HelloNormal();
    HelloReversed();
  }

  lemma PanamaLower()
    ensures ToLower("A man a plan a canal Panama")
            == "a" + " " + "man" + " " + "a" + " " + "plan" + " " + "a" + " " + "canal" + " " + "panama"
  {
  }

  lemma PanamaGlued()
    ensures "a" + "man" + "a" + "plan" + "a" + "canal" + "panama" == "amanaplanacanalpanama"
  {
  }

  lemma PanamaNormal()
    ensures RemoveRune(ToLower("A man a plan a canal Panama"), ' ') == "amanaplanacanalpanama"
  {
    PanamaLower();
    RemoveSpacesOfSevenWords("a", "man", "a", "plan", "a", "canal", "panama");
    PanamaGlued();
  }

  /** Runes i to |t|-1-i of `t` each equal their mirror image. */
  predicate MirrorFrom(t: string, i: nat)
    decreases |t| - i
  {
    2 * i + 1 >= |t| || (t[i] == t[|t| - 1 - i] && MirrorFrom(t, i + 1))
  }

  lemma {:induction false} MirrorFromAll(t: string, i: nat)
    requires MirrorFrom(t, i)
    ensures forall j :: i <= j < |t| - i ==> t[j] == t[|t| - 1 - j]
    decreases |t| - i
  {
    if 2 * i + 1 < |t| {
      MirrorFromAll(t, i + 1);
    }
  }

  lemma MirrorOf(t: string)
    requires t == "amanaplanacanalpanama"
    ensures Reverse(t) == t
  {
    assert MirrorFrom(t, 10);
    assert MirrorFrom(t, 9);
    assert MirrorFrom(t, 8);
    assert MirrorFrom(t, 7);
    assert MirrorFrom(t, 6);
    assert MirrorFrom(t, 5);
    assert MirrorFrom(t, 4);
    assert MirrorFrom(t, 3);
    assert MirrorFrom(t, 2);
    assert MirrorFrom(t, 1);
    assert MirrorFrom(t, 0);
    MirrorFromAll(t, 0);
    PalindromeMirror(t);
  }

  /** "A man a plan a canal Panama" is one. */
  lemma PanamaIs()
    ensures Normalize("A man a plan a canal Panama") == Reverse(Normalize("A man a plan a canal Panama"))
  {
    PanamaNormal();
    MirrorOf("amanaplanacanalpanama");
  }

  /** Case is folded beyond ASCII: "Ää" is a palindrome. */
  lemma UmlautIs()
    ensures Normalize("\U{C4}\U{E4}") == "\U{E4}\U{E4}" == Reverse(Normalize("\U{C4}\U{E4}"))
  {
    assert ToLower("\U{C4}\U{E4}") == "\U{E4}\U{E4}";
    RemoveAbsent("\U{E4}\U{E4}", ' ');
    ReverseAt("\U{E4}\U{E4}");
  }

  /** Cyrillic Supplement letters fold too: "Ґґ" is a palindrome. */
  lemma GheIs()
    ensures Normalize("\U{490}\U{491}") == "\U{491}\U{491}" == Reverse(Normalize("\U{490}\U{491}"))
  {
    assert LowerRune('\U{490}') == '\U{491}';
    assert ToLower("\U{490}\U{491}") == "\U{491}\U{491}";
    RemoveAbsent("\U{491}\U{491}", ' ');
    ReverseAt("\U{491}\U{491}");
  }

  /** Greek and Coptic letters outside the basic Greek range fold too: "ϴθ" is a palindrome. */
  lemma ThetaIs()
    ensures Normalize("\U{3F4}\U{3B8}") == "\U{3B8}\U{3B8}" == Reverse(Normalize("\U{3F4}\U{3B8}"))
  {
    assert LowerRune('\U{3F4}') == '\U{3B8}';
    assert ToLower("\U{3F4}\U{3B8}") == "\U{3B8}\U{3B8}";
    RemoveAbsent("\U{3B8}\U{3B8}", ' ');
    ReverseAt("\U{3B8}\U{3B8}");
  }

  /** The empty string is a palindrome. */
  lemma EmptyIs()
    ensures Normalize("") == Reverse(Normalize(""))
  {
    assert ToLower("") == "";
  }

  /** Only ' ' is removed: a tab, newline or other white space stays and takes part in the comparison. */
  lemma OtherSpacesKept(s: string, c: char)
    requires c != ' ' && !IsUpper(c) && c in s
    ensures c in Normalize(s)
  {
    var i :| 0 <= i < |s| && s[i] == c;
    var t := ToLower(s);
    assert t[i] == c;
    assert multiset(t)[c] > 0;
    assert multiset(Normalize(s))[c] == multiset(t)[c];
  }
}
