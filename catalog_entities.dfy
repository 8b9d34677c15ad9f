/**
 * The `@BeforeInsert` slug hooks of the catalog's `Product` and `Category`
 * entities. Both run the same pipeline on the entity's name: lower-case it,
 * replace each maximal run of characters outside [a-z0-9] by one '-', then
 * strip leading and trailing dashes. A slug that is already set is kept.
 */
module CatalogEntities {
  import opened Wrappers
  import opened JsText

  /** The class `[a-z0-9]`. */
  predicate IsSlugAlnum(c: char) { IsLower(c) || IsDigit(c) }

  /** Every character is in `[a-z0-9-]`. */
  predicate SlugChars(s: string) { forall i | 0 <= i < |s| :: IsSlugAlnum(s[i]) || s[i] == '-' }

  /** No "--" anywhere. */
  predicate NoDoubleDash(s: string) { forall i | 0 <= i < |s| - 1 :: s[i] == '-' ==> s[i + 1] != '-' }

  /** The shape every generated slug has. */
  predicate SlugShaped(s: string) {
    SlugChars(s) && NoDoubleDash(s) && (s != [] ==> s[0] != '-' && s[|s| - 1] != '-')
  }

  /** Drops the leading run of characters outside [a-z0-9]. */
  function DropRun(s: string): (r: string)
    ensures |r| <= |s| && r == s[|s| - |r|..]
    ensures r != [] ==> IsSlugAlnum(r[0])
  {
    if s == [] || IsSlugAlnum(s[0]) then s else DropRun(s[1..])
  }

  /** `s.replace(/[^a-z0-9]+/g, '-')`. */
  function Collapse(s: string): (r: string)
    ensures SlugChars(r) && NoDoubleDash(r)
    ensures s != [] && IsSlugAlnum(s[0]) ==> r != [] && r[0] == s[0]
    decreases |s|
  {
    if s == [] then []
    else if IsSlugAlnum(s[0]) then [s[0]] + Collapse(s[1..])
    else "-" + Collapse(DropRun(s[1..]))
  }

  /** Strips the leading dashes (`/^-+/`). */
  function TrimStart(s: string): (r: string)
    ensures |r| <= |s| && r == s[|s| - |r|..]
    ensures r != [] ==> r[0] != '-'
    ensures s != [] && s[0] != '-' ==> r == s
  {
    if s != [] && s[0] == '-' then TrimStart(s[1..]) else s
  }

  /** Strips the trailing dashes (`/-+$/`). */
  function TrimEnd(s: string): (r: string)
    ensures |r| <= |s| && r == s[..|r|]
    ensures r != [] ==> r[|r| - 1] != '-'
    ensures s != [] && s[|s| - 1] != '-' ==> r == s
  {
    if s != [] && s[|s| - 1] == '-' then TrimEnd(s[..|s| - 1]) else s
  }

  /** The slug `generateSlug` derives from a name. */
  function Slugify(name: string): (r: string) {
    TrimEnd(TrimStart(Collapse(ToLower(name))))
  }

  /** A suffix of a string over [a-z0-9-] without "--" is one too. */
  lemma SuffixKeepsChars(s: string, k: nat)
    requires k <= |s| && SlugChars(s) && NoDoubleDash(s)
    ensures SlugChars(s[k..]) && NoDoubleDash(s[k..])
  {
    assert forall i | 0 <= i < |s| - k :: s[k..][i] == s[k + i];
  }

  /** A prefix of a string over [a-z0-9-] without "--" is one too. */
  lemma PrefixKeepsChars(s: string, k: nat)
    requires k <= |s| && SlugChars(s) && NoDoubleDash(s)
    ensures SlugChars(s[..k]) && NoDoubleDash(s[..k])
  {
    assert forall i | 0 <= i < k :: s[..k][i] == s[i];
  }

  /** A slug contains only [a-z0-9-], never "--", and neither starts nor ends with '-'. */
  lemma SlugifyShaped(name: string)
    ensures SlugShaped(Slugify(name))
  {
    var c := Collapse(ToLower(name));
    var t := TrimStart(c);
    SuffixKeepsChars(c, |c| - |t|);
    var r := TrimEnd(t);
    PrefixKeepsChars(t, |r|);
    assert Slugify(name) == r;
  }

  /** On a string that already has slug shape the pipeline changes nothing. */
  lemma {:induction false} CollapseFixed(s: string)
    requires SlugChars(s) && NoDoubleDash(s)
    ensures Collapse(s) == s
    decreases |s|
  {
    if s != [] {
      assert SlugChars(s[1..]) && NoDoubleDash(s[1..]);
      CollapseFixed(s[1..]);
      if !IsSlugAlnum(s[0]) {
        assert DropRun(s[1..]) == s[1..];
      }
    }
  }

  lemma ToLowerFixed(s: string)
    requires SlugChars(s)
    ensures ToLower(s) == s
  {
  }

  /** Slugifying a slug returns it unchanged. */
  lemma SlugifyIdempotent(name: string)
    ensures Slugify(Slugify(name)) == Slugify(name)
  {
    var s := Slugify(name);
    SlugifyShaped(name);
    ToLowerFixed(s);
    CollapseFixed(s);
  }

  /** The letters and digits of `s`, in order. */
  function AlnumOf(s: string): (r: string) {
    if s == [] then [] else (if IsSlugAlnum(s[0]) then [s[0]] else []) + AlnumOf(s[1..])
  }

  lemma {:induction false} AlnumOfConcat(a: string, b: string)
    ensures AlnumOf(a + b) == AlnumOf(a) + AlnumOf(b)
    decreases |a|
  {
    if a != [] {
      var head := if IsSlugAlnum(a[0]) then [a[0]] else [];
      assert (a + b)[0] == a[0] && (a + b)[1..] == a[1..] + b;
      AlnumOfConcat(a[1..], b);
      assert AlnumOf(a + b) == head + AlnumOf(a[1..] + b);
      assert AlnumOf(a) == head + AlnumOf(a[1..]);
    } else {
      assert a + b == b;
    }
  }

  lemma {:induction false} AlnumOfDropRun(s: string)
    ensures AlnumOf(DropRun(s)) == AlnumOf(s)
    decreases |s|
  {
    if s != [] && !IsSlugAlnum(s[0]) {
      AlnumOfDropRun(s[1..]);
    }
  }

  lemma {:induction false} AlnumOfCollapse(s: string)
    ensures AlnumOf(Collapse(s)) == AlnumOf(s)
    decreases |s|
  {
    if s != [] {
      if IsSlugAlnum(s[0]) {
        AlnumOfCollapse(s[1..]);
        assert ([s[0]] + Collapse(s[1..]))[1..] == Collapse(s[1..]);
      } else {
        AlnumOfCollapse(DropRun(s[1..]));
        AlnumOfDropRun(s[1..]);
        assert ("-" + Collapse(DropRun(s[1..])))[1..] == Collapse(DropRun(s[1..]));
      }
    }
  }

  lemma {:induction false} AlnumOfTrimStart(s: string)
    ensures AlnumOf(TrimStart(s)) == AlnumOf(s)
    decreases |s|
  {
    if s != [] && s[0] == '-' {
      AlnumOfTrimStart(s[1..]);
    }
  }

  lemma {:induction false} AlnumOfTrimEnd(s: string)
    ensures AlnumOf(TrimEnd(s)) == AlnumOf(s)
    decreases |s|
  {
    if s != [] && s[|s| - 1] == '-' {
      var init := s[..|s| - 1];
      AlnumOfTrimEnd(init);
      assert s == init + "-";
      AlnumOfConcat(init, "-");
    }
  }

  /**
   * The slug keeps every letter and digit of the lower-cased name, in order,
   * and adds none: it differs from the name only in its separators.
   */
  lemma SlugifyKeepsAlnum(name: string)
    ensures AlnumOf(Slugify(name)) == AlnumOf(ToLower(name))
  {
    var c := Collapse(ToLower(name));
    AlnumOfCollapse(ToLower(name));
    AlnumOfTrimStart(c);
    AlnumOfTrimEnd(TrimStart(c));
  }

  /** A name with no letter or digit yields the empty slug. */
  lemma SlugifyEmpty(name: string)
    requires AlnumOf(ToLower(name)) == []
    ensures Slugify(name) == []
  {
    var s := Slugify(name);
    SlugifyKeepsAlnum(name);
    SlugifyShaped(name);
  }

  /** The `Product` entity's name and slug. */
  class ProductEntity {
    var name: string
    /** `None` is an unset slug. */
    var slug: Option<string>

    constructor (name: string, slug: Option<string>)
      ensures this.name == name && this.slug == slug
    {
      this.name := name;
      this.slug := slug;
    }

    /** `generateSlug()`: fills in a missing or empty slug from the name. */
    method GenerateSlug()
      modifies this`slug
      ensures old(slug).None? || old(slug) == Some("") ==> slug == Some(Slugify(name))
      ensures old(slug).Some? && old(slug) != Some("") ==> slug == old(slug)
    {
      if slug.None? || slug == Some("") {
        slug := Some(Slugify(name));
      }
    }
  }

  /** The `Category` entity's name and slug. */
  class CategoryEntity {
    var name: string
    var slug: Option<string>

    constructor (name: string, slug: Option<string>)
      ensures this.name == name && this.slug == slug
    {
      this.name := name;
      this.slug := slug;
    }

    /** `generateSlug()`: the same rule as for products. */
    method GenerateSlug()
      modifies this`slug
      ensures old(slug).None? || old(slug) == Some("") ==> slug == Some(Slugify(name))
      ensures old(slug).Some? && old(slug) != Some("") ==> slug == old(slug)
    {
      if slug.None? || slug == Some("") {
        slug := Some(Slugify(name));
      }
    }
  }
}
