/** Lists without duplicates, and what narrowing and merging keep of a list. */
module Lists {

  ghost predicate NoDuplicates<T>(s: seq<T>) {
    forall i, j :: 0 <= i < j < |s| ==> s[i] != s[j]
  }

  ghost function Elements<T>(s: seq<T>): set<T> {
    set x | x in s
  }

  lemma Snoc<T>(s: seq<T>, x: T)
    ensures Elements(s + [x]) == Elements(s) + {x}
    ensures NoDuplicates(s) && x !in s ==> NoDuplicates(s + [x])
  {
  }

  lemma ElementsOfConcat<T>(s: seq<T>, t: seq<T>)
    ensures Elements(s + t) == Elements(s) + Elements(t)
  {
  }

  function Init<T>(s: seq<T>): seq<T>
    requires |s| > 0
  {
    s[..|s| - 1]
  }

  function Last<T>(s: seq<T>): T
    requires |s| > 0
  {
    s[|s| - 1]
  }

  // s is t with some elements left out
  predicate Subsequence<T(==)>(s: seq<T>, t: seq<T>)
    decreases |t|
  {
    || |s| == 0
    || (|t| > 0 && (Subsequence(s, Init(t)) || (Last(s) == Last(t) && Subsequence(Init(s), Init(t)))))
  }

  lemma {:induction false} SubsequenceOfItself<T>(s: seq<T>)
    ensures Subsequence(s, s)
    decreases |s|
  {
    if |s| == 0 {
    } else {
      SubsequenceOfItself(Init(s));
    }
  }

  lemma {:induction false} SubsequenceIsTransitive<T>(s: seq<T>, t: seq<T>, u: seq<T>)
    requires Subsequence(s, t) && Subsequence(t, u)
    ensures Subsequence(s, u)
    decreases |u|, |t|
  {
    if |s| == 0 || |t| == 0 {
    } else if Subsequence(t, Init(u)) {
      SubsequenceIsTransitive(s, t, Init(u));
    } else if Subsequence(s, Init(t)) {
      SubsequenceIsTransitive(s, Init(t), Init(u));
    } else {
      SubsequenceIsTransitive(Init(s), Init(t), Init(u));
    }
  }

  lemma {:induction false} SubsequenceHasNoNewElements<T>(s: seq<T>, t: seq<T>)
    requires Subsequence(s, t)
    ensures Elements(s) <= Elements(t)
    decreases |t|
  {
    if |s| == 0 {
    } else if Subsequence(s, Init(t)) {
      SubsequenceHasNoNewElements(s, Init(t));
    } else {
      SubsequenceHasNoNewElements(Init(s), Init(t));
      assert s == Init(s) + [Last(s)] && t == Init(t) + [Last(t)];
      Snoc(Init(s), Last(s));
      Snoc(Init(t), Last(t));
    }
  }

  // Every element once, where it first occurs
  function Dedup<T(==, !new)>(s: seq<T>): (r: seq<T>)
    ensures NoDuplicates(r) && (forall x :: x in r <==> x in s)
    decreases |s|
  {
    if |s| == 0 then []
    else
      var r := Dedup(Init(s));
      assert s == Init(s) + [Last(s)];
      if Last(s) in r then r else r + [Last(s)]
  }

  /** Removing duplicates keeps the order and nothing else changes. */
  lemma {:induction false} DedupKeepsOrder<T(!new)>(s: seq<T>)
    ensures Subsequence(Dedup(s), s)
    ensures NoDuplicates(s) ==> Dedup(s) == s
    decreases |s|
  {
    if |s| == 0 {
    } else {
      DedupKeepsOrder(Init(s));
      assert s == Init(s) + [Last(s)];
    }
  }

  lemma DedupSnoc<T(!new)>(s: seq<T>, x: T)
    ensures Dedup(s + [x]) == if x in s then Dedup(s) else Dedup(s) + [x]
  {
  }

  lemma DedupStep<T(!new)>(s: seq<T>, i: nat)
    requires i < |s|
    ensures Dedup(s[..i + 1]) == if s[i] in Dedup(s[..i]) then Dedup(s[..i]) else Dedup(s[..i]) + [s[i]]
  {
    assert s[..i + 1] == s[..i] + [s[i]];
    DedupSnoc(s[..i], s[i]);
  }

  /** Merging a list with more elements leaves the list, without its duplicates, in front and unchanged. */
  lemma {:induction false} DedupIsPrefix<T(!new)>(s: seq<T>, t: seq<T>)
    ensures Dedup(s) <= Dedup(s + t)
    decreases |t|
  {
    if |t| == 0 {
      assert s + t == s;
    } else {
      DedupIsPrefix(s, Init(t));
      assert s + t == (s + Init(t)) + [Last(t)];
      DedupSnoc(s + Init(t), Last(t));
      hide Dedup;
    }
  }

  /** Merging can start from the list without its duplicates. */
  lemma {:induction false} DedupOfConcat<T(!new)>(s: seq<T>, t: seq<T>)
    ensures Dedup(s + t) == Dedup(Dedup(s) + t)
    decreases |t|
  {
    if |t| == 0 {
      assert s + t == s && Dedup(s) + t == Dedup(s);
      DedupKeepsOrder(Dedup(s));
    } else {
      DedupOfConcat(s, Init(t));
      assert forall x :: x in Dedup(s) + Init(t) <==> x in s + Init(t);
      hide Dedup;
      assert s + t == (s + Init(t)) + [Last(t)] && Dedup(s) + t == (Dedup(s) + Init(t)) + [Last(t)];
      DedupSnoc(s + Init(t), Last(t));
      DedupSnoc(Dedup(s) + Init(t), Last(t));
    }
  }
}
