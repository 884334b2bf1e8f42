/**
 * The two catalog memos of App.tsx: the category list offered as filters and
 * the products shown for a search term and a selected category.
 */
module Catalog {
  import opened Types
  import Seqs

  /** The filter entry that selects every category. */
  const ALL: string := "All"

  predicate NoDuplicates(s: seq<string>)
  {
    forall i, j | 0 <= i < j < |s| :: s[i] != s[j]
  }

  /** The position of the first occurrence of `x` in `s`. */
  function FirstIndex(s: seq<string>, x: string): (k: nat)
    requires x in s
    ensures k < |s| && s[k] == x
    ensures forall j | 0 <= j < k :: s[j] != x
  {
    if s[0] == x then 0 else 1 + FirstIndex(s[1..], x)
  }

  /**
   * `Array.from(new Set(s))`: a JavaScript Set remembers insertion order, so
   * each element is kept at its first occurrence.
   */
  function Distinct(s: seq<string>): (r: seq<string>)
    ensures forall x :: x in r <==> x in s
    ensures NoDuplicates(r)
  {
    if s == [] then []
    else
      var init, x := s[..|s| - 1], s[|s| - 1];
      assert s == init + [x];
      var r' := Distinct(init);
      if x in r' then r' else r' + [x]
  }

  /** Distinct lists elements in the order in which they first occur in `s`. */
  lemma {:induction false} DistinctFirstOccurrenceOrder(s: seq<string>)
    ensures forall i, j | 0 <= i < j < |Distinct(s)| ::
      FirstIndex(s, Distinct(s)[i]) < FirstIndex(s, Distinct(s)[j])
  {
    if s != [] {
      var init, x := s[..|s| - 1], s[|s| - 1];
      assert s == init + [x];
      DistinctFirstOccurrenceOrder(init);
      var r', r := Distinct(init), Distinct(s);
      forall y | y in init ensures FirstIndex(s, y) == FirstIndex(init, y) {
        FirstIndexExtend(init, x, y);
      }
      if x !in r' {
        assert r == r' + [x];
        assert x !in init;
        forall i | 0 <= i < |r'| ensures FirstIndex(s, r[i]) < FirstIndex(s, x) {
          assert r[i] == r'[i] && r'[i] in init;
        }
      }
    }
  }

  /** Appending an element does not move the first occurrence of anything already there. */
  lemma {:induction false} FirstIndexExtend(s: seq<string>, x: string, y: string)
    requires y in s
    ensures FirstIndex(s + [x], y) == FirstIndex(s, y)
  {
    var a, b := FirstIndex(s + [x], y), FirstIndex(s, y);
    assert (s + [x])[b] == y;
  }

  /** `products.map(p => p.category)`. */
  function CategoryList(products: seq<Product>): (r: seq<string>)
    ensures |r| == |products|
    ensures forall i | 0 <= i < |products| :: r[i] == products[i].category
  {
    seq(|products|, i requires 0 <= i < |products| => products[i].category)
  }

  /**
   * The `categories` memo: 'All', then each category of the catalog once, in
   * the order in which products first use it.
   */
  function Categories(products: seq<Product>): (r: seq<string>)
    ensures |r| >= 1 && r[0] == ALL
    ensures NoDuplicates(r[1..])
    ensures forall i | 0 <= i < |products| :: products[i].category in r[1..]
    ensures forall c | c in r[1..] :: c in CategoryList(products)
  {
    var r := [ALL] + Distinct(CategoryList(products));
    assert r[1..] == Distinct(CategoryList(products));
    r
  }

  /** The categories after 'All' are ordered by first use in the catalog. */
  lemma {:induction false} CategoriesInFirstUseOrder(products: seq<Product>)
    ensures forall i, j | 1 <= i < j < |Categories(products)| ::
      FirstIndex(CategoryList(products), Categories(products)[i])
        < FirstIndex(CategoryList(products), Categories(products)[j])
  {
    var d := Distinct(CategoryList(products));
    DistinctFirstOccurrenceOrder(CategoryList(products));
    assert Categories(products) == [ALL] + d;
    forall i, j | 1 <= i < j < |Categories(products)|
      ensures FirstIndex(CategoryList(products), Categories(products)[i])
            < FirstIndex(CategoryList(products), Categories(products)[j])
    {
      assert Categories(products)[i] == d[i - 1] && Categories(products)[j] == d[j - 1];
    }
  }

  /** `toLowerCase` on the letters A to Z; every other character is left as it is. */
  function LowerChar(c: char): char
  {
    if 'A' <= c <= 'Z' then (c as int + 32) as char else c
  }

  function ToLower(s: string): (r: string)
    ensures |r| == |s|
    ensures forall i | 0 <= i < |s| :: !('A' <= r[i] <= 'Z')
    ensures forall i | 0 <= i < |s| :: !('A' <= s[i] <= 'Z') ==> r[i] == s[i]
    ensures forall i | 0 <= i < |s| :: 'A' <= s[i] <= 'Z' ==>
      'a' <= r[i] <= 'z' && r[i] as int - 'a' as int == s[i] as int - 'A' as int
  {
    seq(|s|, i requires 0 <= i < |s| => LowerChar(s[i]))
  }

  lemma ToLowerIdempotent(s: string)
    ensures ToLower(ToLower(s)) == ToLower(s)
  {
  }

  /** `text.includes(term)`: `term` occurs in `text` at some position. */
  predicate Contains(text: string, term: string): (b: bool)
    ensures b ==> |term| <= |text|
    ensures term == [] ==> b
    decreases |text|
  {
    |term| <= |text| && (text[..|term|] == term || Contains(text[1..], term))
  }

  /** Contains says exactly that `term` occurs at some offset of `text`. */
  lemma {:induction false} ContainsAt(text: string, term: string)
    ensures Contains(text, term) <==> exists i | 0 <= i <= |text| - |term| :: text[i..][..|term|] == term
    decreases |text|
  {
    if |term| <= |text| && text[..|term|] != term && |text| > 0 {
      ContainsAt(text[1..], term);
      if exists i | 0 <= i <= |text| - |term| :: text[i..][..|term|] == term {
        var i :| 0 <= i <= |text| - |term| && text[i..][..|term|] == term;
        assert i != 0;
        assert text[1..][i - 1..] == text[i..];
      }
      if Contains(text[1..], term) {
        var i :| 0 <= i <= |text| - 1 - |term| && text[1..][i..][..|term|] == term;
        assert text[1..][i..] == text[i + 1..];
      }
    } else if |term| <= |text| && text[..|term|] == term {
      assert text[0..] == text;
    }
  }

  /** Whether product `p` is shown for `searchTerm` and `selectedCategory`. */
  predicate Matches(p: Product, searchTerm: string, selectedCategory: string)
  {
    Contains(ToLower(p.name), ToLower(searchTerm)) && (selectedCategory == ALL || p.category == selectedCategory)
  }

  function Shown(searchTerm: string, selectedCategory: string): Product -> bool
  {
    (p: Product) => Matches(p, searchTerm, selectedCategory)
  }

  /** The `filteredProducts` memo. */
  function FilteredProducts(products: seq<Product>, searchTerm: string, selectedCategory: string): (r: seq<Product>)
    ensures |r| <= |products|
    ensures forall i | 0 <= i < |r| :: Contains(ToLower(r[i].name), ToLower(searchTerm))
    ensures selectedCategory != ALL ==> forall i | 0 <= i < |r| :: r[i].category == selectedCategory
  {
    Seqs.Filter(products, Shown(searchTerm, selectedCategory))
  }

  /**
   * The result is the catalog in its order with exactly the matching products:
   * each matching product as often as in the catalog, no other product.
   */
  lemma FilteredProductsExact(products: seq<Product>, searchTerm: string, selectedCategory: string)
    ensures Seqs.IsSubsequence(FilteredProducts(products, searchTerm, selectedCategory), products)
    ensures forall p: Product ::
      (multiset(FilteredProducts(products, searchTerm, selectedCategory))[p]
         == if Matches(p, searchTerm, selectedCategory) then multiset(products)[p] else 0)
  {
    var keep := Shown(searchTerm, selectedCategory);
    Seqs.FilterIsSubsequence(products, keep);
    forall p: Product ensures multiset(FilteredProducts(products, searchTerm, selectedCategory))[p]
      == if Matches(p, searchTerm, selectedCategory) then multiset(products)[p] else 0
    {
      Seqs.FilterMultiplicity(products, keep, p);
    }
  }

  /** With an empty search box and 'All' selected, the whole catalog is shown. */
  lemma {:induction false} NoFilterShowsAll(products: seq<Product>)
    ensures FilteredProducts(products, "", ALL) == products
  {
    forall i | 0 <= i < |products| ensures Shown("", ALL)(products[i]) {
      assert ToLower(products[i].name)[..0] == ToLower("");
    }
    Seqs.FilterKeepsAll(products, Shown("", ALL));
  }

  /** The search ignores the case of the letters A to Z in the search term. */
  lemma {:induction false} SearchIgnoresCase(products: seq<Product>, searchTerm: string, selectedCategory: string)
    ensures FilteredProducts(products, searchTerm, selectedCategory)
         == FilteredProducts(products, ToLower(searchTerm), selectedCategory)
  {
    ToLowerIdempotent(searchTerm);
    forall i | 0 <= i < |products|
      ensures Shown(searchTerm, selectedCategory)(products[i]) == Shown(ToLower(searchTerm), selectedCategory)(products[i])
    {
    }
    Seqs.FilterSameOn(products, Shown(searchTerm, selectedCategory), Shown(ToLower(searchTerm), selectedCategory));
  }

  /** The search ignores the case of the letters A to Z in product names too. */
  lemma {:induction false} NameCaseIgnored(p: Product, searchTerm: string, selectedCategory: string)
    ensures Matches(p.(name := ToLower(p.name)), searchTerm, selectedCategory) == Matches(p, searchTerm, selectedCategory)
  {
    ToLowerIdempotent(p.name);
  }
}
