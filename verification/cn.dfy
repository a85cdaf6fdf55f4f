/** The class-name helper (src/utils/cn.ts): the arguments JavaScript treats as true,
    joined by single spaces. An argument is a string or `undefined`. */
module Cn {
  import opened Results
  import opened Text

  /** An argument `filter(Boolean)` keeps: present and not the empty string. */
  predicate Kept(c: Option<string>)
  {
    c.Some? && c.value != ""
  }

  /** The kept arguments, in order. */
  function KeptClasses(classes: seq<Option<string>>): (r: seq<string>)
    ensures |r| <= |classes|
    ensures forall i :: 0 <= i < |r| ==> r[i] != ""
    ensures forall i :: 0 <= i < |classes| && Kept(classes[i]) ==> classes[i].value in r
    ensures forall i :: 0 <= i < |r| ==> Some(r[i]) in classes
  {
    if |classes| == 0 then []
    else (if Kept(classes[0]) then [classes[0].value] else []) + KeptClasses(classes[1..])
  }

  /** Keeping distributes over concatenation, so the order of the arguments is the order of the classes. */
  lemma {:induction false} KeptAppend(a: seq<Option<string>>, b: seq<Option<string>>)
    ensures KeptClasses(a + b) == KeptClasses(a) + KeptClasses(b)
  {
    if |a| > 0 {
      assert (a + b)[1..] == a[1..] + b;
      KeptAppend(a[1..], b);
    } else {
      assert a + b == b;
    }
  }

  /** `cn(...classes)`. */
  function ClassNames(classes: seq<Option<string>>): (r: string)
    ensures (forall i :: 0 <= i < |classes| ==> !Kept(classes[i])) ==> r == ""
    ensures |r| == SumLengths(KeptClasses(classes)) + (if |KeptClasses(classes)| == 0 then 0 else |KeptClasses(classes)| - 1)
  {
    var kept := KeptClasses(classes);
    assert |kept| > 0 ==> |Join(kept, " ")| == SumLengths(kept) + |kept| - 1 by {
      if |kept| > 0 {
        JoinLength(kept, " ");
      }
    }
    Join(kept, " ")
  }

  /** With nothing kept the result is the empty string. */
  lemma {:induction false} NothingKept(classes: seq<Option<string>>)
    requires forall i :: 0 <= i < |classes| ==> !Kept(classes[i])
    ensures KeptClasses(classes) == []
  {
    if |classes| > 0 {
      NothingKept(classes[1..]);
    }
  }

  /** A lone non-empty class comes back unchanged, whatever falsy arguments surround it. */
  lemma SingleClass(before: seq<Option<string>>, c: string, after: seq<Option<string>>)
    requires c != ""
    requires forall i :: 0 <= i < |before| ==> !Kept(before[i])
    requires forall i :: 0 <= i < |after| ==> !Kept(after[i])
    ensures ClassNames(before + [Some(c)] + after) == c
  {
    KeptAppend(before + [Some(c)], after);
    KeptAppend(before, [Some(c)]);
    NothingKept(before);
    NothingKept(after);
    assert KeptClasses([Some(c)]) == [c] by {
      assert [Some(c)][1..] == [];
    }
  }

  /** A falsy argument anywhere changes nothing. */
  lemma FalsyIgnored(a: seq<Option<string>>, c: Option<string>, b: seq<Option<string>>)
    requires !Kept(c)
    ensures ClassNames(a + [c] + b) == ClassNames(a + b)
  {
    KeptAppend(a + [c], b);
    KeptAppend(a, [c]);
    KeptAppend(a, b);
    assert KeptClasses([c]) == [] by {
      assert [c][1..] == [];
    }
    assert KeptClasses(a) + [] == KeptClasses(a);
  }

  /** When no class contains a space, splitting the result on spaces gives back exactly the kept
      classes in order. */
  lemma SplitRecoversClasses(classes: seq<Option<string>>)
    requires |KeptClasses(classes)| > 0
    requires forall i :: 0 <= i < |classes| && classes[i].Some? ==> ' ' !in classes[i].value
    ensures Split(ClassNames(classes), ' ') == KeptClasses(classes)
  {
    var kept := KeptClasses(classes);
    forall i | 0 <= i < |kept| ensures ' ' !in kept[i] {
      assert Some(kept[i]) in classes;
    }
    assert [' '] == " ";
    SplitJoin(kept, ' ');
  }
}
