/** `classNames`: joins CSS class strings, skipping the empty ones. */
module CssTools {
  import opened Js

  /** `classes.filter(Boolean)`: null (None) and "" entries dropped, order kept. */
  function Kept(classes: seq<Option<string>>): (ks: seq<string>)
    ensures forall i :: 0 <= i < |ks| ==> ks[i] != ""
    ensures forall x :: x in ks <==> x != "" && Some(x) in classes
  {
    if classes == [] then []
    else
      var rest := Kept(classes[1..]);
      assert forall x :: Some(x) in classes <==> Some(x) == classes[0] || Some(x) in classes[1..];
      if classes[0].Some? && classes[0].value != "" then [classes[0].value] + rest else rest
  }

  /** A single entry survives exactly when it is a non-empty string; with
      `KeptConcat` this fixes the filter on every list, multiplicities included. */
  lemma KeptSingle(x: Option<string>)
    ensures Kept([x]) == if x.Some? && x.value != "" then [x.value] else []
  {
    assert [x][1..] == [];
  }

  /** `join(' ')`. */
  function Join(ks: seq<string>): string
  {
    if ks == [] then "" else if |ks| == 1 then ks[0] else ks[0] + " " + Join(ks[1..])
  }

  /** `classNames(...classes)`. */
  function ClassNames(classes: seq<Option<string>>): (r: string)
    ensures r == "" <==> Kept(classes) == []
    ensures |Kept(classes)| == 1 ==> r == Kept(classes)[0]
  {
    JoinEmpty(Kept(classes));
    Join(Kept(classes))
  }

  /** `split(' ')`: the pieces between single spaces. */
  function Split(s: string): (pieces: seq<string>)
    ensures |pieces| > 0
  {
    if s == [] then [""]
    else if s[0] == ' ' then [""] + Split(s[1..])
    else
      var rest := Split(s[1..]);
      [[s[0]] + rest[0]] + rest[1..]
  }

  /** Filtering keeps order: the entries of a concatenation survive as the
      survivors of each part, one after the other. */
  lemma {:induction false} KeptConcat(a: seq<Option<string>>, b: seq<Option<string>>)
    ensures Kept(a + b) == Kept(a) + Kept(b)
  {
    if a == [] {
      assert a + b == b;
    } else {
      assert (a + b)[0] == a[0];
      assert (a + b)[1..] == a[1..] + b;
      KeptConcat(a[1..], b);
    }
  }

  /** A word without spaces followed by more text splits off as the start of the first piece. */
  lemma {:induction false} SplitWord(w: string, s: string)
    requires ' ' !in w
    ensures Split(w + s) == [w + Split(s)[0]] + Split(s)[1..]
  {
    var pieces := Split(s);
    if w == [] {
      assert w + s == s && w + pieces[0] == pieces[0];
      assert pieces == [pieces[0]] + pieces[1..];
    } else {
      assert (w + s)[0] == w[0] && w[0] != ' ';
      assert (w + s)[1..] == w[1..] + s;
      SplitWord(w[1..], s);
      var rest := Split(w[1..] + s);
      assert rest[0] == w[1..] + pieces[0] && rest[1..] == pieces[1..];
      assert [w[0]] + (w[1..] + pieces[0]) == w + pieces[0];
    }
  }

  /** Splitting the joined list on spaces gives the list back, when no entry
      is empty or contains a space: entries are separated by exactly one space. */
  lemma {:induction false} SplitJoin(ks: seq<string>)
    requires ks != []
    requires forall i :: 0 <= i < |ks| ==> ks[i] != "" && ' ' !in ks[i]
    ensures Split(Join(ks)) == ks
  {
    if |ks| == 1 {
      SplitWord(ks[0], "");
      assert ks[0] + "" == ks[0] && Split("") == [""];
    } else {
      var rest := Join(ks[1..]);
      SplitJoin(ks[1..]);
      assert (" " + rest)[0] == ' ' && (" " + rest)[1..] == rest;
      assert Split(" " + rest) == [""] + ks[1..];
      SplitWord(ks[0], " " + rest);
      assert ks[0] + " " + rest == ks[0] + (" " + rest);
      assert ks[0] + "" == ks[0];
      assert [ks[0]] + ks[1..] == ks;
    }
  }

  /** Joining two non-empty lists is joining each and putting one space between. */
  lemma {:induction false} JoinConcat(a: seq<string>, b: seq<string>)
    requires a != [] && b != []
    ensures Join(a + b) == Join(a) + " " + Join(b)
  {
    assert (a + b)[0] == a[0];
    if |a| == 1 {
      assert (a + b)[1..] == b;
    } else {
      assert (a + b)[1..] == a[1..] + b;
      JoinConcat(a[1..], b);
    }
  }

  /** The result is "" exactly when nothing survives the filter. */
  lemma {:induction false} JoinEmpty(ks: seq<string>)
    requires forall i :: 0 <= i < |ks| ==> ks[i] != ""
    ensures Join(ks) == "" <==> ks == []
  {
    if |ks| > 1 {
      assert |Join(ks)| >= |ks[0]| + 1;
    }
  }

  /** `classNames` gives "" exactly when every entry is null or "". */
  lemma EmptyClassNames(classes: seq<Option<string>>)
    ensures ClassNames(classes) == "" <==> forall i :: 0 <= i < |classes| ==> classes[i] in {None, Some("")}
  {
    JoinEmpty(Kept(classes));
    if Kept(classes) != [] {
      var x := Kept(classes)[0];
      assert x in Kept(classes);
      var i :| 0 <= i < |classes| && classes[i] == Some(x);
    } else {
      forall i | 0 <= i < |classes| ensures classes[i] in {None, Some("")} {
        match classes[i]
        case None =>
        case Some(v) =>
          assert Some(v) in classes;
          assert v != "" ==> v in Kept(classes);
      }
    }
  }

  /** The classes of the result, split on spaces, are the surviving entries
      in their original order, provided no entry holds a space itself. */
  lemma ClassNamesSplit(classes: seq<Option<string>>)
    requires forall i :: 0 <= i < |classes| && classes[i].Some? ==> ' ' !in classes[i].value
    requires Kept(classes) != []
    ensures Split(ClassNames(classes)) == Kept(classes)
  {
    var ks := Kept(classes);
    forall i | 0 <= i < |ks| ensures ' ' !in ks[i] {
      assert ks[i] in ks;
      var j :| 0 <= j < |classes| && classes[j] == Some(ks[i]);
    }
    SplitJoin(ks);
  }

  /** A single non-empty string passes through, so `classNames` is idempotent. */
  lemma ClassNamesIdempotent(classes: seq<Option<string>>)
    ensures ClassNames([Some(ClassNames(classes))]) == ClassNames(classes)
  {
    var c := ClassNames(classes);
    assert Kept([Some(c)]) == if c == "" then [] else [c];
  }

  /** Classes given as several arguments are the classes of each part, joined
      by one space, whatever the entries contain (multi-class strings included). */
  lemma ClassNamesConcat(a: seq<Option<string>>, b: seq<Option<string>>)
    requires Kept(a) != [] && Kept(b) != []
    ensures ClassNames(a + b) == ClassNames(a) + " " + ClassNames(b)
  {
    KeptConcat(a, b);
    JoinConcat(Kept(a), Kept(b));
  }

  /** A single non-empty class string passes through unchanged. */
  lemma ClassNamesSingle(s: string)
    requires s != ""
    ensures ClassNames([Some(s)]) == s
  {
    KeptSingle(Some(s));
  }
}
