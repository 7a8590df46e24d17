/**
 * The search box every list screen puts above its table: a blank term shows the
 * whole list, otherwise the term is lower-cased (not trimmed) and a row stays
 * when the term is a substring of one of the row's search fields.  Each screen
 * supplies its own `fields` function, already lower-casing the columns it
 * lower-cases.
 */
module Search {
  import opened JsText

  /** Some field of the row contains the needle. */
  predicate AnyContains(fields: seq<string>, needle: string) {
    exists k | 0 <= k < |fields| :: Contains(fields[k], needle)
  }

  /** `items.filter(...)`: the rows one of whose fields contains the needle, in list order. */
  function Keep<T(==)>(items: seq<T>, needle: string, fields: T -> seq<string>): (r: seq<T>)
    ensures |r| <= |items|
    ensures forall x | x in r :: x in items && AnyContains(fields(x), needle)
    decreases |items|
  {
    if items == [] then []
    else if AnyContains(fields(items[0]), needle) then [items[0]] + Keep(items[1..], needle, fields)
    else Keep(items[1..], needle, fields)
  }

  /** The `filteredData` memo: identity on a blank term, else Keep with the lower-cased term. */
  function Filter<T(==)>(items: seq<T>, term: string, fields: T -> seq<string>): (r: seq<T>)
    ensures |r| <= |items|
    ensures IsBlank(term) ==> r == items
    ensures !IsBlank(term) ==> forall x | x in r :: x in items && AnyContains(fields(x), Lower(term))
  {
    if IsBlank(term) then items else Keep(items, Lower(term), fields)
  }

  /** `r` is obtained from `s` by deleting elements, keeping the order of the rest. */
  predicate IsSubsequence<T(==)>(r: seq<T>, s: seq<T>)
    decreases |s|
  {
    if r == [] then true
    else if s == [] then false
    else (r[0] == s[0] && IsSubsequence(r[1..], s[1..])) || IsSubsequence(r, s[1..])
  }

  lemma {:induction false} SubsequenceOfSelf<T>(s: seq<T>)
    ensures IsSubsequence(s, s)
    decreases |s|
  {
    if s != [] {
      SubsequenceOfSelf(s[1..]);
    }
  }

  lemma {:induction false} KeepIsSubsequence<T>(items: seq<T>, needle: string, fields: T -> seq<string>)
    ensures IsSubsequence(Keep(items, needle, fields), items)
    decreases |items|
  {
    if items != [] {
      KeepIsSubsequence(items[1..], needle, fields);
      var rest := Keep(items[1..], needle, fields);
      if AnyContains(fields(items[0]), needle) {
        assert ([items[0]] + rest)[1..] == rest;
      }
    }
  }

  /** A row is kept exactly when it is in the list and matches. */
  lemma {:induction false} KeepMembership<T>(items: seq<T>, needle: string, fields: T -> seq<string>, x: T)
    ensures x in Keep(items, needle, fields) <==> x in items && AnyContains(fields(x), needle)
    decreases |items|
  {
    if items != [] {
      KeepMembership(items[1..], needle, fields, x);
      assert x in items <==> x == items[0] || x in items[1..];
    }
  }

  /** Every matching row keeps all its occurrences, every other row loses them all. */
  lemma {:induction false} KeepCount<T>(items: seq<T>, needle: string, fields: T -> seq<string>, x: T)
    ensures multiset(Keep(items, needle, fields))[x]
         == if AnyContains(fields(x), needle) then multiset(items)[x] else 0
    decreases |items|
  {
    if items != [] {
      KeepCount(items[1..], needle, fields, x);
      assert items == [items[0]] + items[1..];
      assert multiset(items) == multiset([items[0]]) + multiset(items[1..]);
    }
  }

  lemma {:induction false} KeepAppend<T>(a: seq<T>, b: seq<T>, needle: string, fields: T -> seq<string>)
    ensures Keep(a + b, needle, fields) == Keep(a, needle, fields) + Keep(b, needle, fields)
    decreases |a|
  {
    if a == [] {
      assert a + b == b;
    } else {
      assert (a + b)[0] == a[0];
      assert (a + b)[1..] == a[1..] + b;
      KeepAppend(a[1..], b, needle, fields);
    }
  }

  lemma {:induction false} KeepIdempotent<T>(items: seq<T>, needle: string, fields: T -> seq<string>)
    ensures Keep(Keep(items, needle, fields), needle, fields) == Keep(items, needle, fields)
    decreases |items|
  {
    if items != [] {
      var rest := Keep(items[1..], needle, fields);
      KeepIdempotent(items[1..], needle, fields);
      if AnyContains(fields(items[0]), needle) {
        assert ([items[0]] + rest)[0] == items[0];
        assert ([items[0]] + rest)[1..] == rest;
      }
    }
  }

  /**
   * The whole contract of the search box: the result is an order-preserving
   * subsequence of the list; a blank term keeps every row; otherwise a row stays,
   * with all its occurrences, exactly when one of its fields contains the
   * lower-cased term.
   */
  lemma FilterSpec<T>(items: seq<T>, term: string, fields: T -> seq<string>, x: T)
    ensures IsSubsequence(Filter(items, term, fields), items)
    ensures IsBlank(term) ==> Filter(items, term, fields) == items
    ensures x in Filter(items, term, fields)
        <==> x in items && (IsBlank(term) || AnyContains(fields(x), Lower(term)))
    ensures multiset(Filter(items, term, fields))[x]
         == if IsBlank(term) || AnyContains(fields(x), Lower(term)) then multiset(items)[x] else 0
  {
    if IsBlank(term) {
      SubsequenceOfSelf(items);
    } else {
      KeepIsSubsequence(items, Lower(term), fields);
      KeepMembership(items, Lower(term), fields, x);
      KeepCount(items, Lower(term), fields, x);
    }
  }

  /** Typing the term in upper case finds the same rows: only its lower-cased form is used. */
  lemma FilterIgnoresTermCase<T>(items: seq<T>, term: string, fields: T -> seq<string>)
    ensures Filter(items, Upper(term), fields) == Filter(items, term, fields)
  {
    UpperKeepsBlank(term);
    LowerOfUpper(term);
  }

  /** Searching the displayed rows again with the same term changes nothing. */
  lemma FilterIdempotent<T>(items: seq<T>, term: string, fields: T -> seq<string>)
    ensures Filter(Filter(items, term, fields), term, fields) == Filter(items, term, fields)
  {
    if !IsBlank(term) {
      KeepIdempotent(items, Lower(term), fields);
    }
  }

  /** The search works row by row: filtering a concatenation filters each part. */
  lemma FilterAppend<T>(a: seq<T>, b: seq<T>, term: string, fields: T -> seq<string>)
    ensures Filter(a + b, term, fields) == Filter(a, term, fields) + Filter(b, term, fields)
  {
    if !IsBlank(term) {
      KeepAppend(a, b, Lower(term), fields);
    }
  }
}
