// What stripping and collapsing keep of a text: its words, in their order.

module Words {
  import opened Seqs
  import opened Text

  // Every character that is not white space, and whether white space stands in
  // front of it; the first one counts as standing behind some when `after` holds.
  function Marked(s: string, after: bool): seq<(char, bool)> {
    if s == "" then []
    else if IsSpace(s[0]) then Marked(s[1..], true)
    else [(s[0], after)] + Marked(s[1..], false)
  }

  predicate IsBlank(s: string) {
    forall i :: 0 <= i < |s| ==> IsSpace(s[i])
  }

  // The words of a text: its characters without white space, and where they are parted.
  predicate SameWords(s: string, t: string) {
    Marked(s, true) == Marked(t, true)
  }

  lemma {:induction false} BlankSaysNothing(s: string, after: bool)
    requires IsBlank(s)
    ensures Marked(s, after) == []
  {
    if s != "" {
      BlankSaysNothing(s[1..], true);
    }
  }

  lemma {:induction false} BlankEnd(s: string, blank: string, after: bool)
    requires IsBlank(blank)
    ensures Marked(s + blank, after) == Marked(s, after)
  {
    if s == "" {
      assert s + blank == blank;
      BlankSaysNothing(blank, after);
    } else {
      assert (s + blank)[1..] == s[1..] + blank;
      BlankEnd(s[1..], blank, if IsSpace(s[0]) then true else false);
    }
  }

  lemma {:induction false} BlankStart(blank: string, s: string)
    requires IsBlank(blank)
    ensures Marked(blank + s, true) == Marked(s, true)
  {
    if blank == "" {
      assert blank + s == s;
    } else {
      assert (blank + s)[1..] == blank[1..] + s;
      BlankStart(blank[1..], s);
    }
  }

  lemma {:induction false} TrimmedBlank(s: string, n: nat)
    requires n <= |s|
    ensures IsBlank(s[TrimmedEnd(s, n)..n])
  {
    if n > 0 && IsSpace(s[n - 1]) {
      TrimmedBlank(s, n - 1);
      assert s[TrimmedEnd(s, n)..n] == s[TrimmedEnd(s, n)..n - 1] + [s[n - 1]];
    }
  }

  lemma FrontTaken(s: string) returns (front: string)
    ensures s == front + LStrip(s) && IsBlank(front)
  {
    var k := Skip(IsSpace, s, 0);
    SkipsOver(IsSpace, s, 0);
    front := s[..k];
    Cut(s, k);
  }

  lemma BackTaken(s: string) returns (back: string)
    ensures s == RStrip(s) + back && IsBlank(back)
  {
    TrimmedBlank(s, |s|);
    back := s[TrimmedEnd(s, |s|)..];
    Cut(s, TrimmedEnd(s, |s|));
  }

  // Stripping takes white space off both ends and nothing else.
  lemma StripTakesEnds(s: string) returns (front: string, back: string)
    ensures s == front + (Strip(s) + back) && IsBlank(front) && IsBlank(back)
  {
    front := FrontTaken(s);
    back := BackTaken(LStrip(s));
  }

  lemma StripKeepsWords(s: string)
    ensures SameWords(Strip(s), s)
  {
    var front, back := StripTakesEnds(s);
    BlankEnd(Strip(s), back, true);
    BlankStart(front, Strip(s) + back);
  }

  lemma {:induction false} SqueezeKeepsWords(s: string, afterSpace: bool, after: bool)
    requires afterSpace ==> after
    ensures Marked(Squeeze(s, afterSpace), after) == Marked(s, after)
  {
    if s != "" {
      if !IsSpace(s[0]) {
        SqueezeKeepsWords(s[1..], false, false);
        assert ([s[0]] + Squeeze(s[1..], false))[1..] == Squeeze(s[1..], false);
      } else {
        SqueezeKeepsWords(s[1..], true, true);
        assert (" " + Squeeze(s[1..], true))[1..] == Squeeze(s[1..], true);
        assert "" + Squeeze(s[1..], true) == Squeeze(s[1..], true);
      }
    }
  }

  // Collapsing keeps the words, and leaves one blank between any two.
  lemma CollapseKeepsWords(s: string)
    ensures SameWords(Collapse(s), s) && Collapsed(Collapse(s))
  {
    CollapseIsCollapsed(s);
    SqueezeKeepsWords(s, false, true);
    StripKeepsWords(Squeeze(s, false));
  }
}
