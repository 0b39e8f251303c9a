/** Updating from the same file twice: exactly when the second time changes nothing.
    The rows are the valid ones of the file, which in update mode are the same both
    times. */
module Reimport {
  import opened Wrappers
  import opened Catalog

  /** The products after one import, and after a second one. */
  function Once(original: seq<Product>, ms: seq<Match>, text: Text): seq<Product> {
    AllApplied(original, ms, true, text)
  }

  function Twice(original: seq<Product>, ms: seq<Match>, text: Text): seq<Product> {
    AllApplied(Once(original, ms, text), ms, true, text)
  }

  function TargetOf(products: seq<Product>, m: Match, text: Text): (at: Option<nat>)
    ensures at.Some? ==> at.value < |products|
  {
    Target(products, m.row, true, text)
  }

  function KeyOf(m: Match, text: Text): string {
    NameKey(m.row.name, text)
  }

  predicate HasKey(products: seq<Product>, i: nat, key: string, text: Text)
    requires i < |products|
  {
    NameKey(products[i].name, text) == key
  }

  predicate Coded(m: Match) {
    m.row.sku != ""
  }

  /** The product already has the row's values. */
  predicate HasValues(p: Product, m: Match) {
    Rewritten(p, m) == p
  }

  /** The product has the row's stock code. */
  predicate IsCodedBy(p: Product, m: Match, text: Text) {
    Coded(m) && p.sku != "" && text.fold(p.sku) == text.fold(m.row.sku)
  }

  lemma {:induction false} LastWithNameIsLast(products: seq<Product>, key: string, text: Text)
    ensures match LastWithName(products, key, text)
            case None => forall i :: 0 <= i < |products| ==> !HasKey(products, i, key, text)
            case Some(at) => at < |products| && HasKey(products, at, key, text) &&
                             forall i :: at < i < |products| ==> !HasKey(products, i, key, text)
  {
    if products != [] {
      var init := products[..|products| - 1];
      LastWithNameIsLast(init, key, text);
      assert forall i :: 0 <= i < |init| ==> HasKey(products, i, key, text) == HasKey(init, i, key, text);
    }
  }

  lemma {:induction false} LastAtIsLast(products: seq<Product>, ms: seq<Match>, i: nat, text: Text)
    ensures match LastAt(products, ms, i, true, text)
            case None => forall k :: 0 <= k < |ms| ==> TargetOf(products, ms[k], text) != Some(i)
            case Some(at) => at < |ms| && TargetOf(products, ms[at], text) == Some(i) &&
                             forall k :: at < k < |ms| ==> TargetOf(products, ms[k], text) != Some(i)
    decreases |ms|
  {
    if ms != [] {
      var init := ms[..|ms| - 1];
      LastAtIsLast(products, init, i, text);
      assert forall k :: 0 <= k < |init| ==> init[k] == ms[k];
    }
  }

  // ----- where each row writes -----

  /** How many of the rows before the k-th create a product. */
  function CreatedBefore(original: seq<Product>, ms: seq<Match>, k: nat, text: Text): nat
    requires k <= |ms|
  {
    |NewProducts(original, ms[..k], true, text)|
  }

  /** The place the first import writes a row to. */
  function Home(original: seq<Product>, ms: seq<Match>, k: nat, text: Text): nat
    requires k < |ms|
  {
    var at := TargetOf(original, ms[k], text);
    if at.Some? then at.value else |original| + CreatedBefore(original, ms, k, text)
  }

  lemma {:induction false} CreatedStep(original: seq<Product>, ms: seq<Match>, k: nat, text: Text)
    requires k < |ms|
    ensures NewProducts(original, ms[..k + 1], true, text) ==
            NewProducts(original, ms[..k], true, text) + if TargetOf(original, ms[k], text).None? then [Created(ms[k])] else []
  {
    assert ms[..k + 1][..k] == ms[..k];
  }

  lemma {:induction false} CreatedIsPrefix(original: seq<Product>, ms: seq<Match>, k: nat, n: nat, text: Text)
    requires k <= n <= |ms|
    ensures NewProducts(original, ms[..k], true, text) <= NewProducts(original, ms[..n], true, text)
    decreases n
  {
    if k < n {
      CreatedStep(original, ms, n - 1, text);
      CreatedIsPrefix(original, ms, k, n - 1, text);
    }
  }

  /** Every creating row has its own product, in the order of the rows. */
  lemma {:induction false} CreatedInOrder(original: seq<Product>, ms: seq<Match>, k: nat, n: nat, text: Text)
    requires k < n <= |ms| && TargetOf(original, ms[k], text).None?
    ensures CreatedBefore(original, ms, k, text) < CreatedBefore(original, ms, n, text)
    ensures NewProducts(original, ms[..n], true, text)[CreatedBefore(original, ms, k, text)] == Created(ms[k])
  {
    CreatedStep(original, ms, k, text);
    CreatedIsPrefix(original, ms, k + 1, n, text);
  }

  lemma {:induction false} CreatorOf(original: seq<Product>, ms: seq<Match>, j: nat, n: nat, text: Text) returns (k: nat)
    requires n <= |ms| && j < CreatedBefore(original, ms, n, text)
    ensures k < n && TargetOf(original, ms[k], text).None? && CreatedBefore(original, ms, k, text) == j
    decreases n
  {
    CreatedStep(original, ms, n - 1, text);
    if j < CreatedBefore(original, ms, n - 1, text) {
      k := CreatorOf(original, ms, j, n - 1, text);
    } else {
      k := n - 1;
    }
  }

  lemma {:induction false} OnceAt(original: seq<Product>, ms: seq<Match>, text: Text)
    ensures |Once(original, ms, text)| == |original| + CreatedBefore(original, ms, |ms|, text)
    ensures CreatedBefore(original, ms, |ms|, text) == |NewProducts(original, ms, true, text)|
    ensures forall i :: 0 <= i < |original| ==> Once(original, ms, text)[i] == Rewrite(original, ms, i, true, text)
    ensures forall j :: 0 <= j < CreatedBefore(original, ms, |ms|, text) ==>
              Once(original, ms, text)[|original| + j] == NewProducts(original, ms, true, text)[j]
  {
    assert ms[..|ms|] == ms;
    WhatAnImportDoes(original, ms, true, text);
    var once := Once(original, ms, text);
    assert |once[|original|..]| == |once| - |original|;
    forall j | 0 <= j < CreatedBefore(original, ms, |ms|, text)
      ensures once[|original| + j] == NewProducts(original, ms, true, text)[j]
    {
      assert once[|original|..][j] == once[|original| + j];
    }
  }

  /** A row's home has the row's stock code, or was created from it, or has the name
      the row was matched by. */
  lemma {:induction false} HomeFacts(original: seq<Product>, ms: seq<Match>, k: nat, text: Text)
    requires k < |ms|
    ensures var once, home := Once(original, ms, text), Home(original, ms, k, text);
            && home < |once|
            && (Coded(ms[k]) ==> IsCodedBy(once[home], ms[k], text))
            && (home < |original| <==> TargetOf(original, ms[k], text).Some?)
            && (home >= |original| ==> once[home] == Created(ms[k]))
            && (home < |original| ==> once[home].sku == original[home].sku)
            && (home < |original| && !Coded(ms[k]) ==> HasKey(original, home, KeyOf(ms[k], text), text))
  {
    OnceAt(original, ms, text);
    assert ms[..|ms|] == ms;
    var home := Home(original, ms, k, text);
    if home >= |original| {
      CreatedInOrder(original, ms, k, |ms|, text);
    } else {
      LastWithNameIsLast(original, KeyOf(ms[k], text), text);
    }
  }

  lemma {:induction false} NewHomesDiffer(original: seq<Product>, ms: seq<Match>, k: nat, n: nat, text: Text)
    requires k < n < |ms| && TargetOf(original, ms[k], text).None? && TargetOf(original, ms[n], text).None?
    ensures Home(original, ms, k, text) < Home(original, ms, n, text)
  {
    CreatedInOrder(original, ms, k, n, text);
  }

  /** The last row that the first import writes to a place, if any does. */
  lemma {:induction false} LastWriter(original: seq<Product>, ms: seq<Match>, i: nat, text: Text) returns (w: Option<nat>)
    requires i < |Once(original, ms, text)|
    ensures w.None? ==> forall k :: 0 <= k < |ms| ==> Home(original, ms, k, text) != i
    ensures w.Some? ==> w.value < |ms| && Home(original, ms, w.value, text) == i
                        && HasValues(Once(original, ms, text)[i], ms[w.value])
                        && forall k :: w.value < k < |ms| ==> Home(original, ms, k, text) != i
    ensures w.None? ==> i < |original| && Once(original, ms, text)[i] == original[i]
  {
    OnceAt(original, ms, text);
    if i < |original| {
      w := LastAt(original, ms, i, true, text);
      LastAtIsLast(original, ms, i, text);
      forall k | 0 <= k < |ms| && Home(original, ms, k, text) == i ensures TargetOf(original, ms[k], text) == Some(i) {
        HomeFacts(original, ms, k, text);
      }
    } else {
      var k := CreatorOf(original, ms, i - |original|, |ms|, text);
      HomeFacts(original, ms, k, text);
      forall n | k < n < |ms| ensures Home(original, ms, n, text) != i {
        HomeFacts(original, ms, n, text);
        if TargetOf(original, ms[n], text).None? {
          NewHomesDiffer(original, ms, k, n, text);
        }
      }
      w := Some(k);
    }
  }

  // ----- the second import -----

  /** A coded row goes to the same place again. */
  lemma {:induction false} CodedGoesHome(original: seq<Product>, ms: seq<Match>, k: nat, text: Text)
    requires k < |ms| && Coded(ms[k])
    requires DistinctSkus(original, text) && Admissible(original, ms, true, text)
    ensures TargetOf(Once(original, ms, text), ms[k], text) == Some(Home(original, ms, k, text))
  {
    var once, home := Once(original, ms, text), Home(original, ms, k, text);
    HomeFacts(original, ms, k, text);
    ApplyingKeepsSkus(original, ms, true, text);
    assert text.fold(once[home].sku) in SkusOf(once, text);
  }

  /** No two coded rows share a home. */
  lemma {:induction false} OneCodedRow(original: seq<Product>, ms: seq<Match>, k: nat, n: nat, text: Text)
    requires k < |ms| && n < |ms| && Coded(ms[k]) && Coded(ms[n])
    requires Admissible(original, ms, true, text)
    requires Home(original, ms, k, text) == Home(original, ms, n, text)
    ensures k == n
  {
    HomeFacts(original, ms, k, text);
    HomeFacts(original, ms, n, text);
  }

  /** An import changes nothing exactly when every row finds a product, and whatever
      row has the last word on one brings nothing new. */
  lemma {:induction false} NothingChanges(products: seq<Product>, ms: seq<Match>, text: Text)
    ensures AllApplied(products, ms, true, text) == products <==>
            && (forall k :: 0 <= k < |ms| ==> TargetOf(products, ms[k], text).Some?)
            && (forall i :: 0 <= i < |products| ==> LastWordIsOld(products, ms, i, text))
  {
    OnceAt(products, ms, text);
    var after := AllApplied(products, ms, true, text);
    if after == products {
      forall k | 0 <= k < |ms| ensures TargetOf(products, ms[k], text).Some? {
        HomeFacts(products, ms, k, text);
      }
    } else if forall k :: 0 <= k < |ms| ==> TargetOf(products, ms[k], text).Some? {
      if |after| > |products| {
        var k := CreatorOf(products, ms, 0, |ms|, text);
        assert false;
      }
      var i :| 0 <= i < |products| && after[i] != products[i];
      assert !LastWordIsOld(products, ms, i, text);
    }
  }

  predicate LastWordIsOld(products: seq<Product>, ms: seq<Match>, i: nat, text: Text)
    requires i < |products|
  {
    var at := LastAt(products, ms, i, true, text);
    at.Some? ==> HasValues(products[i], ms[at.value])
  }

  // ----- the condition -----

  /** The last row without a stock code to carry its name. */
  predicate LastOfItsName(ms: seq<Match>, k: nat, text: Text) {
    && k < |ms| && !Coded(ms[k])
    && forall n :: k < n < |ms| && !Coded(ms[n]) ==> KeyOf(ms[n], text) != KeyOf(ms[k], text)
  }

  /** The row's name still leads to the product it led to; or to one that a later row
      with its stock code has the last word on, or that has the row's values already,
      and whatever earlier row with a stock code wrote to the first one agrees. */
  predicate FindsItsWay(original: seq<Product>, ms: seq<Match>, k: nat, text: Text)
    requires k < |ms|
  {
    var once := Once(original, ms, text);
    var was, now := TargetOf(original, ms[k], text), TargetOf(once, ms[k], text);
    was.Some? && now.Some? && (was == now || (HasItsSay(once, ms, k, now.value, text) && NobodyObjects(once, ms, k, was.value, text)))
  }

  predicate HasItsSay(once: seq<Product>, ms: seq<Match>, k: nat, at: nat, text: Text)
    requires k < |ms| && at < |once|
  {
    HasValues(once[at], ms[k]) || exists n :: k < n < |ms| && IsCodedBy(once[at], ms[n], text)
  }

  predicate NobodyObjects(once: seq<Product>, ms: seq<Match>, k: nat, at: nat, text: Text)
    requires k < |ms|
  {
    at < |once| && forall n :: 0 <= n < k && IsCodedBy(once[at], ms[n], text) ==> HasValues(once[at], ms[n])
  }

  predicate Settled(original: seq<Product>, ms: seq<Match>, text: Text) {
    forall k :: 0 <= k < |ms| && LastOfItsName(ms, k, text) && TargetOf(original, ms[k], text).Some? ==>
      FindsItsWay(original, ms, k, text)
  }

  predicate Importable(original: seq<Product>, ms: seq<Match>, text: Text) {
    DistinctSkus(original, text) && Admissible(original, ms, true, text)
  }

  lemma {:induction false} LastOfTheName(ms: seq<Match>, k: nat, text: Text) returns (u: nat)
    requires k < |ms| && !Coded(ms[k])
    ensures k <= u < |ms| && LastOfItsName(ms, u, text) && KeyOf(ms[u], text) == KeyOf(ms[k], text)
    decreases |ms| - k
  {
    u := k;
    if n :| k < n < |ms| && !Coded(ms[n]) && KeyOf(ms[n], text) == KeyOf(ms[k], text) {
      u := LastOfTheName(ms, n, text);
    }
  }

  /** An uncoded row that writes over an old product was led there by its name. */
  lemma {:induction false} SameKeySameTarget(products: seq<Product>, a: Match, b: Match, text: Text)
    requires !Coded(a) && !Coded(b)
    ensures KeyOf(a, text) == KeyOf(b, text) ==> TargetOf(products, a, text) == TargetOf(products, b, text)
    ensures TargetOf(products, a, text).Some? && TargetOf(products, a, text) == TargetOf(products, b, text) ==>
              KeyOf(a, text) == KeyOf(b, text)
  {
    LastWithNameIsLast(products, KeyOf(a, text), text);
    LastWithNameIsLast(products, KeyOf(b, text), text);
  }

  lemma {:induction false} ValuesNameIt(products: seq<Product>, i: nat, m: Match, text: Text)
    requires i < |products| && HasValues(products[i], m)
    ensures HasKey(products, i, KeyOf(m, text), text)
  {
  }

  /** A row whose name nobody had finds at least what it created. */
  lemma {:induction false} CreatedNameIsFound(original: seq<Product>, ms: seq<Match>, k: nat, text: Text)
    requires k < |ms| && !Coded(ms[k]) && TargetOf(original, ms[k], text).None?
    ensures var now := TargetOf(Once(original, ms, text), ms[k], text);
            now.Some? && Home(original, ms, k, text) <= now.value
  {
    var once := Once(original, ms, text);
    HomeFacts(original, ms, k, text);
    LastWithNameIsLast(once, KeyOf(ms[k], text), text);
    assert HasKey(once, Home(original, ms, k, text), KeyOf(ms[k], text), text);
  }

  lemma {:induction false} AllFound(original: seq<Product>, ms: seq<Match>, k: nat, text: Text)
    requires Importable(original, ms, text) && Settled(original, ms, text) && k < |ms|
    ensures TargetOf(Once(original, ms, text), ms[k], text).Some?
  {
    if Coded(ms[k]) {
      CodedGoesHome(original, ms, k, text);
    } else if TargetOf(original, ms[k], text).None? {
      CreatedNameIsFound(original, ms, k, text);
    } else {
      var u := LastOfTheName(ms, k, text);
      SameKeySameTarget(original, ms[k], ms[u], text);
      SameKeySameTarget(Once(original, ms, text), ms[k], ms[u], text);
      assert FindsItsWay(original, ms, u, text);
    }
  }

  /** The second import's last row on a product is one with its stock code. */
  lemma {:induction false} CodedLastWord(original: seq<Product>, ms: seq<Match>, i: nat, k: nat, text: Text)
    requires Importable(original, ms, text) && Settled(original, ms, text)
    requires i < |Once(original, ms, text)| && LastAt(Once(original, ms, text), ms, i, true, text) == Some(k)
    requires k < |ms| && Coded(ms[k])
    ensures HasValues(Once(original, ms, text)[i], ms[k])
  {
    var once := Once(original, ms, text);
    CodedGoesHome(original, ms, k, text);
    LastAtIsLast(once, ms, i, text);
    var w := LastWriter(original, ms, i, text);
    var j := w.value;
    if j != k {
      if Coded(ms[j]) {
        OneCodedRow(original, ms, k, j, text);
      }
      HomeFacts(original, ms, j, text);
      HomeFacts(original, ms, k, text);
      if TargetOf(original, ms[j], text).None? {
        NewHomesDiffer(original, ms, k, j, text);
      }
      var u := LastOfTheName(ms, j, text);
      SameKeySameTarget(original, ms[j], ms[u], text);
      assert Home(original, ms, u, text) == i;
      assert u == j;
      assert FindsItsWay(original, ms, u, text);
    }
  }

  lemma {:induction false} UncodedLastWord(original: seq<Product>, ms: seq<Match>, i: nat, k: nat, text: Text)
    requires Importable(original, ms, text) && Settled(original, ms, text)
    requires i < |Once(original, ms, text)| && LastAt(Once(original, ms, text), ms, i, true, text) == Some(k)
    requires k < |ms| && !Coded(ms[k])
    ensures HasValues(Once(original, ms, text)[i], ms[k])
  {
    var once := Once(original, ms, text);
    LastAtIsLast(once, ms, i, text);
    var u := LastOfTheName(ms, k, text);
    SameKeySameTarget(once, ms[k], ms[u], text);
    assert u == k;
    forall n | k < n < |ms| && Coded(ms[n]) ensures Home(original, ms, n, text) != i {
      CodedGoesHome(original, ms, n, text);
    }
    var w := LastWriter(original, ms, i, text);
    if TargetOf(original, ms[k], text).None? {
      CreatedNameIsFound(original, ms, k, text);
      HomeFacts(original, ms, k, text);
      var j := w.value;
      HomeFacts(original, ms, j, text);
      ValuesNameIt(once, i, ms[j], text);
      LastWithNameIsLast(once, KeyOf(ms[k], text), text);
      if j < k {
        NewHomesDiffer(original, ms, j, k, text);
      }
    } else {
      assert FindsItsWay(original, ms, k, text);
      var was := TargetOf(original, ms[k], text).value;
      if was == i {
        assert Home(original, ms, k, text) == i;
        var j := w.value;
        HomeFacts(original, ms, j, text);
        SameKeySameTarget(original, ms[j], ms[k], text);
      } else if exists n :: k < n < |ms| && IsCodedBy(once[i], ms[n], text) {
        var n :| k < n < |ms| && IsCodedBy(once[i], ms[n], text);
        CodedIsAtHome(original, ms, n, i, text);
        assert false;
      }
    }
  }

  /** The product with a row's stock code is the row's home. */
  lemma {:induction false} CodedIsAtHome(original: seq<Product>, ms: seq<Match>, n: nat, i: nat, text: Text)
    requires Importable(original, ms, text) && n < |ms|
    requires i < |Once(original, ms, text)| && IsCodedBy(Once(original, ms, text)[i], ms[n], text)
    ensures Home(original, ms, n, text) == i
  {
    HomeFacts(original, ms, n, text);
    ApplyingKeepsSkus(original, ms, true, text);
  }

  lemma {:induction false} SettledIsEnough(original: seq<Product>, ms: seq<Match>, text: Text)
    requires Importable(original, ms, text) && Settled(original, ms, text)
    ensures Twice(original, ms, text) == Once(original, ms, text)
  {
    var once := Once(original, ms, text);
    NothingChanges(once, ms, text);
    forall k | 0 <= k < |ms| ensures TargetOf(once, ms[k], text).Some? {
      AllFound(original, ms, k, text);
    }
    forall i | 0 <= i < |once| ensures LastWordIsOld(once, ms, i, text) {
      var at := LastAt(once, ms, i, true, text);
      if at.Some? {
        if Coded(ms[at.value]) {
          CodedLastWord(original, ms, i, at.value, text);
        } else {
          UncodedLastWord(original, ms, i, at.value, text);
        }
      }
    }
  }

  /** Where nothing changes the second time, a name's new product is one that the last
      row of the name, or a later coded row, has had its say on. */
  lemma {:induction false} NothingChangedSay(original: seq<Product>, ms: seq<Match>, k: nat, text: Text)
    requires Importable(original, ms, text) && Twice(original, ms, text) == Once(original, ms, text)
    requires k < |ms| && LastOfItsName(ms, k, text)
    ensures var once := Once(original, ms, text);
            var now := TargetOf(once, ms[k], text);
            now.Some? && HasItsSay(once, ms, k, now.value, text)
  {
    var once := Once(original, ms, text);
    NothingChanges(once, ms, text);
    var i := TargetOf(once, ms[k], text).value;
    LastAtIsLast(once, ms, i, text);
    assert LastWordIsOld(once, ms, i, text);
    var n := LastAt(once, ms, i, true, text).value;
    if n != k {
      if !Coded(ms[n]) {
        SameKeySameTarget(once, ms[n], ms[k], text);
      }
      assert IsCodedBy(once[i], ms[n], text);
    }
  }

  lemma {:induction false} NothingChangedObjection(original: seq<Product>, ms: seq<Match>, k: nat, n: nat, text: Text)
    requires Importable(original, ms, text) && Twice(original, ms, text) == Once(original, ms, text)
    requires n < k < |ms| && LastOfItsName(ms, k, text)
    requires var was, now := TargetOf(original, ms[k], text), TargetOf(Once(original, ms, text), ms[k], text);
             was.Some? && was != now && was.value < |Once(original, ms, text)| && IsCodedBy(Once(original, ms, text)[was.value], ms[n], text)
    ensures HasValues(Once(original, ms, text)[TargetOf(original, ms[k], text).value], ms[n])
  {
    var once, i := Once(original, ms, text), TargetOf(original, ms[k], text).value;
    NothingChanges(once, ms, text);
    assert LastWordIsOld(once, ms, i, text);
    CodedIsAtHome(original, ms, n, i, text);
    CodedGoesHome(original, ms, n, text);
    LastAtIsLast(once, ms, i, text);
    var m := LastAt(once, ms, i, true, text).value;
    if Coded(ms[m]) {
      CodedGoesHome(original, ms, m, text);
      OneCodedRow(original, ms, m, n, text);
    } else {
      LastWriterIsOfTheName(original, ms, k, n, text);
      assert false;
    }
  }

  /** After an earlier coded row, the last row of the name has the last word on the
      product that both wrote to, which then carries the name. */
  lemma {:induction false} LastWriterIsOfTheName(original: seq<Product>, ms: seq<Match>, k: nat, n: nat, text: Text)
    requires Importable(original, ms, text) && n < k < |ms| && LastOfItsName(ms, k, text) && Coded(ms[n])
    requires TargetOf(original, ms[k], text).Some?
    requires Home(original, ms, n, text) == TargetOf(original, ms[k], text).value
    ensures var once, i := Once(original, ms, text), TargetOf(original, ms[k], text).value;
            i < |once| && HasKey(once, i, KeyOf(ms[k], text), text)
  {
    var i := TargetOf(original, ms[k], text).value;
    HomeFacts(original, ms, k, text);
    assert Home(original, ms, k, text) == i;
    var w := LastWriter(original, ms, i, text);
    var j := w.value;
    HomeFacts(original, ms, j, text);
    if Coded(ms[j]) {
      OneCodedRow(original, ms, j, n, text);
      assert false;
    } else {
      SameKeySameTarget(original, ms[j], ms[k], text);
      ValuesNameIt(Once(original, ms, text), i, ms[j], text);
    }
  }

  /** Importing a file a second time changes nothing if and only if every name that
      the file uses without a stock code finds its way again. */
  lemma {:induction false} ReimportChangesNothing(original: seq<Product>, ms: seq<Match>, text: Text)
    requires Importable(original, ms, text)
    ensures Twice(original, ms, text) == Once(original, ms, text) <==> Settled(original, ms, text)
  {
    if Settled(original, ms, text) {
      SettledIsEnough(original, ms, text);
    }
    if Twice(original, ms, text) == Once(original, ms, text) {
      forall k | 0 <= k < |ms| && LastOfItsName(ms, k, text) && TargetOf(original, ms[k], text).Some?
        ensures FindsItsWay(original, ms, k, text)
      {
        NothingChangedSay(original, ms, k, text);
        OnceAt(original, ms, text);
        var once := Once(original, ms, text);
        var was, now := TargetOf(original, ms[k], text), TargetOf(once, ms[k], text);
        if was != now {
          forall n | 0 <= n < k && IsCodedBy(once[was.value], ms[n], text) ensures HasValues(once[was.value], ms[n]) {
            NothingChangedObjection(original, ms, k, n, text);
          }
        }
      }
    }
  }

  // ----- which files settle -----

  /** Files whose rows all carry stock codes do. */
  lemma {:induction false} CodedFilesSettle(original: seq<Product>, ms: seq<Match>, text: Text)
    requires Importable(original, ms, text) && forall k :: 0 <= k < |ms| ==> Coded(ms[k])
    ensures Twice(original, ms, text) == Once(original, ms, text)
  {
    ReimportChangesNothing(original, ms, text);
  }

  /** No coded row carries a name that an uncoded row carries, and no two products of
      the branch have one name. */
  predicate NamesApart(original: seq<Product>, ms: seq<Match>, text: Text) {
    && (forall k, n :: 0 <= k < |ms| && 0 <= n < |ms| && !Coded(ms[k]) && Coded(ms[n]) ==> KeyOf(ms[k], text) != KeyOf(ms[n], text))
    && (forall i, j :: 0 <= i < j < |original| ==> NameKey(original[i].name, text) != NameKey(original[j].name, text))
  }

  /** A later row with the stock code of the product that the row names renames it. */
  predicate IsRenamed(original: seq<Product>, ms: seq<Match>, k: nat, text: Text)
    requires k < |ms|
  {
    var at := TargetOf(original, ms[k], text);
    at.Some? && exists n :: k < n < |ms| && IsCodedBy(original[at.value], ms[n], text)
  }

  /** Then a name that led to a product leads to no other. */
  lemma {:induction false} OnlyThere(original: seq<Product>, ms: seq<Match>, k: nat, i: nat, text: Text)
    requires Importable(original, ms, text) && NamesApart(original, ms, text)
    requires k < |ms| && !Coded(ms[k]) && TargetOf(original, ms[k], text).Some?
    requires i < |Once(original, ms, text)| && HasKey(Once(original, ms, text), i, KeyOf(ms[k], text), text)
    ensures Some(i) == TargetOf(original, ms[k], text)
  {
    var once, key := Once(original, ms, text), KeyOf(ms[k], text);
    LastWithNameIsLast(original, key, text);
    var w := LastWriter(original, ms, i, text);
    if w.Some? {
      var j := w.value;
      ValuesNameIt(once, i, ms[j], text);
      HomeFacts(original, ms, j, text);
      SameKeySameTarget(original, ms[j], ms[k], text);
    }
  }

  /** A row that is not renamed keeps its product, and the product its name. */
  lemma {:induction false} UnrenamedStays(original: seq<Product>, ms: seq<Match>, k: nat, text: Text)
    requires Importable(original, ms, text) && NamesApart(original, ms, text)
    requires k < |ms| && LastOfItsName(ms, k, text) && TargetOf(original, ms[k], text).Some?
    ensures TargetOf(Once(original, ms, text), ms[k], text).Some? <==> !IsRenamed(original, ms, k, text)
    ensures TargetOf(Once(original, ms, text), ms[k], text).Some? ==>
              TargetOf(Once(original, ms, text), ms[k], text) == TargetOf(original, ms[k], text)
  {
    var once, key := Once(original, ms, text), KeyOf(ms[k], text);
    var t := TargetOf(original, ms[k], text).value;
    LastWithNameIsLast(once, key, text);
    var now := TargetOf(once, ms[k], text);
    if now.Some? {
      OnlyThere(original, ms, k, now.value, text);
    }
    HomeFacts(original, ms, k, text);
    assert Home(original, ms, k, text) == t;
    var w := LastWriter(original, ms, t, text);
    var j := w.value;
    HomeFacts(original, ms, j, text);
    ValuesNameIt(once, t, ms[j], text);
    if Coded(ms[j]) {
      assert IsCodedBy(original[t], ms[j], text);
      assert IsRenamed(original, ms, k, text);
    } else {
      SameKeySameTarget(original, ms[j], ms[k], text);
      assert j == k;
      forall n | k < n < |ms| ensures !IsCodedBy(original[t], ms[n], text) {
        if IsCodedBy(original[t], ms[n], text) {
          CodedIsAtHome(original, ms, n, t, text);
        }
      }
    }
  }

  /** With names apart a second import changes nothing if and only if no uncoded row
      names a product that a later coded row of the file renames. */
  lemma {:induction false} RenamingIsAllThatMatters(original: seq<Product>, ms: seq<Match>, text: Text)
    requires Importable(original, ms, text) && NamesApart(original, ms, text)
    ensures Twice(original, ms, text) == Once(original, ms, text) <==>
            forall k :: 0 <= k < |ms| && LastOfItsName(ms, k, text) ==> !IsRenamed(original, ms, k, text)
  {
    ReimportChangesNothing(original, ms, text);
    forall k | 0 <= k < |ms| && LastOfItsName(ms, k, text) && TargetOf(original, ms[k], text).Some?
      ensures FindsItsWay(original, ms, k, text) <==> !IsRenamed(original, ms, k, text)
    {
      UnrenamedStays(original, ms, k, text);
    }
  }

  lemma {:induction false} UncodedKeepsNames(original: seq<Product>, ms: seq<Match>, k: nat, i: nat, text: Text)
    requires forall n :: 0 <= n < |ms| ==> !Coded(ms[n])
    requires k < |ms| && TargetOf(original, ms[k], text).Some? && i < |Once(original, ms, text)|
    ensures HasKey(Once(original, ms, text), i, KeyOf(ms[k], text), text) <==>
            i < |original| && HasKey(original, i, KeyOf(ms[k], text), text)
  {
    var w := LastWriter(original, ms, i, text);
    if w.Some? {
      ValuesNameIt(Once(original, ms, text), i, ms[w.value], text);
      HomeFacts(original, ms, w.value, text);
      SameKeySameTarget(original, ms[w.value], ms[k], text);
    }
  }

  /** Files none of whose rows carries a stock code settle as well. */
  lemma {:induction false} UncodedFilesSettle(original: seq<Product>, ms: seq<Match>, text: Text)
    requires Importable(original, ms, text) && forall k :: 0 <= k < |ms| ==> !Coded(ms[k])
    ensures Twice(original, ms, text) == Once(original, ms, text)
  {
    var once := Once(original, ms, text);
    ReimportChangesNothing(original, ms, text);
    forall k | 0 <= k < |ms| && LastOfItsName(ms, k, text) && TargetOf(original, ms[k], text).Some?
      ensures FindsItsWay(original, ms, k, text)
    {
      forall i | 0 <= i < |once|
        ensures HasKey(once, i, KeyOf(ms[k], text), text) <==> i < |original| && HasKey(original, i, KeyOf(ms[k], text), text)
      {
        UncodedKeepsNames(original, ms, k, i, text);
      }
      OnceAt(original, ms, text);
      LastWithNameIsLast(original, KeyOf(ms[k], text), text);
      LastWithNameIsLast(once, KeyOf(ms[k], text), text);
    }
  }

  /** A file that does not: its first row names a product, its second one renames it by
      its stock code, and the second import no longer finds the name. */
  lemma {:induction false} MixedFileAddsAgain(p: Product, named: Match, renaming: Match, text: Text)
    requires !Coded(named) && KeyOf(named, text) == NameKey(p.name, text)
    requires IsCodedBy(p, renaming, text) && KeyOf(renaming, text) != KeyOf(named, text)
    ensures Once([p], [named, renaming], text) == [Rewritten(p, renaming)]
    ensures Twice([p], [named, renaming], text) == [Rewritten(p, renaming), Created(named)]
  {
    var q := Rewritten(p, renaming);
    assert [p][..0] == [] && [q][..0] == [];
    assert TargetOf([p], named, text) == Some(0) && TargetOf([p], renaming, text) == Some(0);
    assert TargetOf([q], named, text) == None && TargetOf([q], renaming, text) == Some(0);
    assert [named, renaming][..1] == [named] && [named][..0] == [];
    assert AllApplied([p], [named], true, text) == [Rewritten(p, named)];
    assert Rewritten(Rewritten(p, named), renaming) == q;
    assert AllApplied([q], [named], true, text) == [q] + [Created(named)];
  }

  /** Another that does not, though nothing is renamed: a coded row creates a namesake
      of the product that a later row names, and the second import takes the namesake
      for it. */
  lemma {:induction false} NamesakeIsOverwritten(p: Product, coded: Match, named: Match, text: Text)
    requires p.sku == "" && Coded(coded) && !Coded(named)
    requires KeyOf(named, text) == NameKey(p.name, text) == KeyOf(coded, text)
    ensures Once([p], [coded, named], text) == [Rewritten(p, named), Created(coded)]
    ensures Twice([p], [coded, named], text) == [Rewritten(p, named), Rewritten(Created(coded), named)]
  {
    var q, r := Rewritten(p, named), Created(coded);
    assert [p][..0] == [] && [q, r][..1] == [q];
    assert TargetOf([p], coded, text) == None && TargetOf([p], named, text) == Some(0);
    assert TargetOf([q, r], coded, text) == Some(1) && TargetOf([q, r], named, text) == Some(1);
    assert [coded, named][..1] == [coded] && [coded][..0] == [];
    assert AllApplied([p], [coded], true, text) == [p] + [r];
    assert AllApplied([q, r], [coded], true, text) == [q, r];
  }

  /** The same for whole files: what is valid the first time is valid the second time. */
  lemma {:induction false} ReimportOfAFile(b: Branch, rows: seq<Row>, text: Text)
    requires DistinctSkus(b.products, text)
    ensures var ms := ValidRows(b, rows, |rows|, true, text);
            var once := AllApplied(b.products, ms, true, text);
            AllApplied(once, ValidRows(b.(products := once), rows, |rows|, true, text), true, text) == once <==>
            Settled(b.products, ms, text)
  {
    var ms := ValidRows(b, rows, |rows|, true, text);
    ValidRowsAreAdmissible(b, rows, |rows|, true, text);
    ValidityIgnoresProducts(b, Once(b.products, ms, text), rows, |rows|, text);
    ReimportChangesNothing(b.products, ms, text);
  }

  /** Two uncoded rows of one name share a product if and only if the branch had one of
      that name before the import; otherwise each creates its own. */
  lemma {:induction false} RepeatedNameIsCreatedTwice(original: seq<Product>, ms: seq<Match>, k: nat, n: nat, text: Text)
    requires k < n < |ms| && !Coded(ms[k]) && !Coded(ms[n]) && KeyOf(ms[k], text) == KeyOf(ms[n], text)
    ensures var once, first, second := Once(original, ms, text), Home(original, ms, k, text), Home(original, ms, n, text);
            && (first == second <==> exists i :: 0 <= i < |original| && HasKey(original, i, KeyOf(ms[k], text), text))
            && (first != second ==> |original| <= first < second < |once|
                                    && once[first] == Created(ms[k]) && once[second] == Created(ms[n]))
  {
    HomeFacts(original, ms, k, text);
    HomeFacts(original, ms, n, text);
    SameKeySameTarget(original, ms[k], ms[n], text);
    LastWithNameIsLast(original, KeyOf(ms[k], text), text);
    if TargetOf(original, ms[k], text).None? {
      NewHomesDiffer(original, ms, k, n, text);
    }
  }
}
