/** models/Category.js: a category name and its URL slug, and the pre-save
    normalisation of both. */
module CategoryModel {
  import opened Common
  import opened Text

  datatype Category = Category(id: string, name: string, slug: string,
                               description: Option<string>, icon: Option<string>)

  /** A string every character of which is its own lower-case form. */
  predicate AllLower(s: string) {
    forall i :: 0 <= i < |s| ==> LowerChar(s[i]) == s[i]
  }

  lemma {:induction false} DashRunsKeepsLower(s: string)
    requires AllLower(s)
    ensures AllLower(DashRuns(s))
    decreases |s|
  {
    if s != [] {
      if IsSpace(s[0]) {
        var t := TrimStart(s);
        assert t == s[|s| - |t|..];
        DashRunsKeepsLower(t);
      } else {
        DashRunsKeepsLower(s[1..]);
      }
    }
  }

  /** The slug normalisation: trim, lower-case, each whitespace run to '-'. */
  function NormaliseSlug(s: string): (r: string)
    ensures NoSpace(r) && AllLower(r)
  {
    var t := ToLower(Trim(s));
    DashRunsKeepsLower(t);
    DashRuns(t)
  }

  /** A slug with no whitespace and no upper-case letter is left as it is;
      in particular normalising twice is normalising once. */
  lemma NormaliseSlugFixed(s: string)
    requires NoSpace(s) && AllLower(s)
    ensures NormaliseSlug(s) == s
  {
    TrimOfNoSpace(s);
    assert ToLower(s) == s;
  }

  lemma NormaliseSlugIdempotent(s: string)
    ensures NormaliseSlug(NormaliseSlug(s)) == NormaliseSlug(s)
  {
    NormaliseSlugFixed(NormaliseSlug(s));
  }

  /** The pre-save hook: a modified name is trimmed, a modified slug
      normalised; nothing else changes. */
  method PreSave(c: Category, nameModified: bool, slugModified: bool) returns (r: Category)
    ensures r == c.(name := r.name, slug := r.slug)
    ensures r.name == (if nameModified then Trim(c.name) else c.name)
    ensures r.slug == (if slugModified then NormaliseSlug(c.slug) else c.slug)
    ensures slugModified ==> NoSpace(r.slug)
  {
    r := c;
    if nameModified {
      r := r.(name := Trim(r.name));
    }
    if slugModified {
      r := r.(slug := NormaliseSlug(r.slug));
    }
  }
}
