/** controllers/categoryController.js: creating a category under the slug of
    its name, and listing categories in name order. */
module CategoryController {
  import opened Common
  import opened Text
  import opened CategoryModel
  import opened Store
  import opened Answer

  // ---------------------------------------------------------------- slugify

  /** The characters the default removal pattern of `slugify` keeps: word
      characters, whitespace and `$*_+~.()'"!-:@`. Characters outside ASCII
      are passed through; the transliteration map is not modelled. */
  predicate SlugKeeps(c: char) {
    IsUpper(c) || IsLower(c) || IsDigit(c) || IsSpace(c) || c in "_$*+~.()'\"!-:@" || c > '\U{7F}'
  }

  /** One input character after the character map, the replacement of '-'
      by a space and the removal pattern. */
  function SlugPiece(c: char): string {
    if c == '-' then " "
    else if c == '$' then "dollar"
    else if c == '%' then "percent"
    else if c == '&' then "and"
    else if c == '<' then "less"
    else if c == '>' then "greater"
    else if c == '|' then "or"
    else if SlugKeeps(c) then [c]
    else []
  }

  function SlugPieces(s: string): string {
    if s == [] then [] else SlugPiece(s[0]) + SlugPieces(s[1..])
  }

  /** `slugify(s)` with its default options: characters mapped and filtered
      one by one, the result trimmed and each whitespace run replaced by '-'. */
  function Slugify(s: string): (r: string)
    ensures NoSpace(r)
  {
    DashRuns(Trim(SlugPieces(s)))
  }

  lemma {:induction false} SlugPiecesKeepLower(s: string)
    requires AllLower(s)
    ensures AllLower(SlugPieces(s))
  {
    if s != [] {
      SlugPiecesKeepLower(s[1..]);
      var p := SlugPiece(s[0]);
      assert AllLower(p);
      var r := SlugPieces(s[1..]);
      forall i | 0 <= i < |p + r|
        ensures LowerChar((p + r)[i]) == (p + r)[i]
      {
        if i >= |p| {
          assert (p + r)[i] == r[i - |p|];
        }
      }
    }
  }

  /** The slug of a lower-case string has no whitespace and no upper-case
      letter, so the model's pre-save slug normalisation leaves it as it is. */
  lemma SlugOfLowerIsNormal(s: string)
    requires AllLower(s)
    ensures AllLower(Slugify(s))
    ensures NormaliseSlug(Slugify(s)) == Slugify(s)
  {
    SlugPiecesKeepLower(s);
    var p := SlugPieces(s);
    var t := Trim(p);
    var a := TrimStart(p);
    assert t == TrimEnd(a);
    assert AllLower(t) by {
      forall i | 0 <= i < |t|
        ensures LowerChar(t[i]) == t[i]
      {
        assert t[i] == a[i] == p[|p| - |a| + i];
      }
    }
    DashRunsKeepsLower(t);
    NormaliseSlugFixed(Slugify(s));
  }

  lemma ToLowerIsLower(s: string)
    ensures AllLower(ToLower(s))
  {
    forall i | 0 <= i < |s|
      ensures LowerChar(ToLower(s)[i]) == ToLower(s)[i]
    {
      ToLowerIdempotent(s);
      assert ToLower(ToLower(s))[i] == LowerChar(ToLower(s)[i]);
    }
  }

  // --------------------------------------------------------- createCategory

  datatype CategoryView = CategoryDoc(category: Category) | CategoryList(categories: seq<Category>)

  datatype CategoryOutcome = CategoryOutcome(categories: seq<Category>, answer: Answer<CategoryView>)

  /** `Category.findOne({ slug })`. */
  function FindSlug(categories: seq<Category>, slug: string): (r: Option<nat>)
    ensures r.Some? ==> r.value < |categories| && categories[r.value].slug == slug
    ensures r.None? <==> forall j :: 0 <= j < |categories| ==> categories[j].slug != slug
  {
    FindFirst(categories, (c: Category) => c.slug == slug)
  }

  /** A stored category with the given name (names carry a unique index). */
  function FindName(categories: seq<Category>, name: string): (r: Option<nat>)
    ensures r.Some? ==> r.value < |categories| && categories[r.value].name == name
    ensures r.None? <==> forall j :: 0 <= j < |categories| ==> categories[j].name != name
  {
    FindFirst(categories, (c: Category) => c.name == name)
  }

  /** The slug `createCategory` derives from a request name. */
  function CategorySlug(name: string): string {
    Slugify(ToLower(Trim(name)))
  }

  /** The outcome of `createCategory`. A name already stored under another
      slug violates the unique index on names. */
  function CreateCategoryOutcome(categories: seq<Category>, name: Option<string>, newId: string, production: bool)
    : CategoryOutcome
  {
    if !Truthy(name) || Trim(name.value) == [] then CategoryOutcome(categories, Says(400, "Category name is required"))
    else
      var formatted := Trim(name.value);
      var slug := CategorySlug(name.value);
      if FindSlug(categories, slug).Some? then CategoryOutcome(categories, Says(400, "Category already exists"))
      else if slug == [] then CategoryOutcome(categories, Thrown(MissingPaths(["slug"]), production))
      else if FindName(categories, formatted).Some? then
        CategoryOutcome(categories, Thrown(DuplicateKey(["name"]), production))
      else
        var c := Category(newId, formatted, slug, None, None);
        CategoryOutcome(categories + [c], Answer(201, Json(CategoryDoc(c))))
  }

  method CreateCategory(db: Database, name: Option<string>, newId: string, production: bool)
    returns (answer: Answer<CategoryView>)
    modifies db`categories
    ensures CategoryOutcome(db.categories, answer) == CreateCategoryOutcome(old(db.categories), name, newId, production)
  {
    if !Truthy(name) || Trim(name.value) == [] {
      return Says(400, "Category name is required");
    }
    var formatted := Trim(name.value);
    var slug := Slugify(ToLower(formatted));
    var taken := FindSlug(db.categories, slug);
    if taken.Some? {
      return Says(400, "Category already exists");
    }
    if slug == [] {
      return Thrown(MissingPaths(["slug"]), production);
    }
    var named := FindName(db.categories, formatted);
    if named.Some? {
      return Thrown(DuplicateKey(["name"]), production);
    }
    var c := Category(newId, formatted, slug, None, None);
    assert CreateCategoryOutcome(db.categories, name, newId, production)
        == CategoryOutcome(db.categories + [c], Answer(201, Json(CategoryDoc(c))));
    TrimIdempotent(name.value);
    ToLowerIsLower(formatted);
    SlugOfLowerIsNormal(ToLower(formatted));
    var saved := PreSave(c, true, true);
    assert saved == c;
    db.categories := db.categories + [saved];
    answer := Answer(201, Json(CategoryDoc(saved)));
  }

  /** A blank name is refused, and so is a name whose slug is taken; a
      refused request stores nothing. */
  lemma CreateCategoryRefusals(categories: seq<Category>, name: Option<string>, newId: string, production: bool)
    ensures var o := CreateCategoryOutcome(categories, name, newId, production);
      && (!Truthy(name) || Trim(name.value) == [] ==> o == CategoryOutcome(categories, Says(400, "Category name is required")))
      && (Truthy(name) && Trim(name.value) != [] && FindSlug(categories, CategorySlug(name.value)).Some? ==>
            o == CategoryOutcome(categories, Says(400, "Category already exists")))
      && (o.answer.status != 201 ==> o.categories == categories)
  {
    if Truthy(name) && Trim(name.value) != [] && FindSlug(categories, CategorySlug(name.value)).None? {
      var slug := CategorySlug(name.value);
      if slug != [] && FindName(categories, Trim(name.value)).None? {
        assert CreateCategoryOutcome(categories, name, newId, production).answer.status == 201;
      }
    }
  }

  /** A 201 answer means every check of the handler passed. */
  lemma CreatedOnlyWhenFree(categories: seq<Category>, name: Option<string>, newId: string, production: bool)
    ensures CreateCategoryOutcome(categories, name, newId, production).answer.status == 201 ==>
      && Truthy(name) && Trim(name.value) != []
      && FindSlug(categories, CategorySlug(name.value)).None?
      && CategorySlug(name.value) != []
      && FindName(categories, Trim(name.value)).None?
  {
    assert Thrown<CategoryView>(MissingPaths(["slug"]), production).status == 400;
    assert Thrown<CategoryView>(DuplicateKey(["name"]), production).status == 400;
  }

  /** A stored category carries the trimmed name and a non-empty slug,
      derived from its lower-case form, free of whitespace and upper-case
      letters. */
  lemma CreateCategoryStores(categories: seq<Category>, name: Option<string>, newId: string, production: bool)
    requires CreateCategoryOutcome(categories, name, newId, production).answer.status == 201
    ensures var cs := CreateCategoryOutcome(categories, name, newId, production).categories;
      && |cs| == |categories| + 1
      && cs[..|categories|] == categories
      && cs[|categories|].name == Trim(name.value)
      && cs[|categories|].slug == CategorySlug(name.value)
      && NoSpace(cs[|categories|].slug)
      && AllLower(cs[|categories|].slug)
      && cs[|categories|].slug != []
  {
    var o := CreateCategoryOutcome(categories, name, newId, production);
    var formatted := Trim(name.value);
    var slug := CategorySlug(name.value);
    CreatedOnlyWhenFree(categories, name, newId, production);
    ToLowerIsLower(formatted);
    SlugOfLowerIsNormal(ToLower(formatted));
    var c := Category(newId, formatted, slug, None, None);
    assert o.categories == categories + [c];
  }

  /** Names that differ only in case or surrounding spaces share a slug, so
      the second is refused once the first is stored. */
  lemma CreateCategoryTwice(categories: seq<Category>, n1: string, n2: string, id1: string, id2: string,
                            production: bool)
    requires CreateCategoryOutcome(categories, Some(n1), id1, production).answer.status == 201
    requires Trim(n2) != [] && ToLower(Trim(n1)) == ToLower(Trim(n2))
    ensures var s1 := CreateCategoryOutcome(categories, Some(n1), id1, production).categories;
      CreateCategoryOutcome(s1, Some(n2), id2, production) == CategoryOutcome(s1, Says(400, "Category already exists"))
  {
    CreateCategoryStores(categories, Some(n1), id1, production);
    var s1 := CreateCategoryOutcome(categories, Some(n1), id1, production).categories;
    assert CategorySlug(n1) == CategorySlug(n2);
    assert s1[|categories|].slug == CategorySlug(n2);
    assert FindSlug(s1, CategorySlug(n2)).Some?;
  }

  // ----------------------------------------------------------- getCategories

  /** Binary (code point) order on names, as the database compares strings. */
  predicate NameAtMost(a: string, b: string) {
    if a == [] then true
    else if b == [] then false
    else if a[0] != b[0] then a[0] < b[0]
    else NameAtMost(a[1..], b[1..])
  }

  lemma {:induction false} NameOrderTotal(a: string, b: string)
    ensures NameAtMost(a, b) || NameAtMost(b, a)
  {
    if a != [] && b != [] && a[0] == b[0] {
      NameOrderTotal(a[1..], b[1..]);
    }
  }

  predicate SortedByName(cs: seq<Category>) {
    forall i :: 0 <= i < |cs| - 1 ==> NameAtMost(cs[i].name, cs[i + 1].name)
  }

  function InsertByName(c: Category, cs: seq<Category>): (r: seq<Category>)
    requires SortedByName(cs)
    ensures SortedByName(r)
    ensures multiset(r) == multiset(cs) + multiset{c}
    ensures r != [] && (r[0] == c || (cs != [] && r[0] == cs[0]))
  {
    if cs == [] then [c]
    else if NameAtMost(c.name, cs[0].name) then [c] + cs
    else
      NameOrderTotal(c.name, cs[0].name);
      var rest := InsertByName(c, cs[1..]);
      assert cs == [cs[0]] + cs[1..];
      [cs[0]] + rest
  }

  /** `Category.find().sort({ name: 1 })`: every category once, in
      ascending name order. */
  function SortByName(cs: seq<Category>): (r: seq<Category>)
    ensures SortedByName(r)
    ensures multiset(r) == multiset(cs)
  {
    if cs == [] then []
    else
      assert cs == [cs[0]] + cs[1..];
      InsertByName(cs[0], SortByName(cs[1..]))
  }

  function GetCategories(categories: seq<Category>): (a: Answer<CategoryView>)
    ensures a.status == 200 && a.payload.Json? && a.payload.value.CategoryList?
    ensures SortedByName(a.payload.value.categories)
    ensures multiset(a.payload.value.categories) == multiset(categories)
  {
    Answer(200, Json(CategoryList(SortByName(categories))))
  }
}
