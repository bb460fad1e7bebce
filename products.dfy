/**
 * The product collection and the two forms of the product manager, and the
 * pure list transforms its event handlers apply: the spread-append of a new
 * product, the `map` that replaces the product under edit, and the `filter`
 * that deletes by id.
 */
module Products {
  import opened Wrappers
  import opened JsValues

  /** The image shown until the user picks a file. */
  const Placeholder: string := "/api/placeholder/200/200"

  /** A product of the collection. Its price is the number `parseFloat` produced. */
  datatype Product = Product(id: int, name: string, price: Number, imageUrl: string)

  /** The create form's draft: the price is still the text of the input. */
  datatype Draft = Draft(name: string, price: string, imageUrl: string)

  /** The draft the create form starts from and is reset to after a successful create. */
  const EmptyDraft: Draft := Draft("", "", Placeholder)

  /** The collection the component starts with. */
  const InitialProducts: seq<Product> := [Product(1, "Smartphone XYZ", Finite(999.99), Placeholder)]

  /** The presence check of the create form: `newProduct.name && newProduct.price`, both strings. */
  predicate DraftFilled(d: Draft)
  {
    StringTruthy(d.name) && StringTruthy(d.price)
  }

  /** The presence check of the edit form: `editingProduct.name && editingProduct.price`, a string and a number. */
  predicate BufferFilled(p: Product)
  {
    StringTruthy(p.name) && NumberTruthy(p.price)
  }

  /** Every product of the collection has a name; the presence checks keep this. */
  predicate NamesPresent(s: seq<Product>)
  {
    forall i :: 0 <= i < |s| ==> s[i].name != ""
  }

  /** The ids of the collection, in order. */
  function Ids(s: seq<Product>): seq<int>
  {
    seq(|s|, i requires 0 <= i < |s| => s[i].id)
  }

  /** No two products of the collection share an id. */
  predicate IdsDistinct(s: seq<Product>)
  {
    forall i, j :: 0 <= i < j < |s| ==> s[i].id != s[j].id
  }

  /** How many products of the collection carry the id. */
  function CountId(s: seq<Product>, id: int): (n: nat)
    ensures n <= |s|
    ensures n == 0 <==> forall p :: p in s ==> p.id != id
  {
    if s == [] then 0
    else (if s[0].id == id then 1 else 0) + CountId(s[1..], id)
  }

  // ---------------------------------------------------------------------
  // The create form
  // ---------------------------------------------------------------------

  /**
   * The draft after an input event of the create form: `[name]: value`, or
   * the object URL of the first selected file when the image input fired
   * with a file. `firstFileUrl` is `None` when no file was selected and
   * otherwise the URL the browser created for the first file. An event for
   * a key the draft does not model (the image input without a file writes a
   * key `image`) changes none of the modelled fields.
   */
  function DraftAfterInput(d: Draft, field: string, value: string, firstFileUrl: Option<string>): (r: Draft)
    ensures field == "image" && firstFileUrl.Some? ==> r == d.(imageUrl := firstFileUrl.value)
    ensures field == "name" ==> r == d.(name := value)
    ensures field == "price" ==> r == d.(price := value)
    ensures field == "imageUrl" ==> r == d.(imageUrl := value)
    ensures field !in {"name", "price", "imageUrl"} && !(field == "image" && firstFileUrl.Some?) ==> r == d
    ensures r.name != d.name ==> field == "name"
    ensures r.price != d.price ==> field == "price"
  {
    if field == "image" && firstFileUrl.Some? then d.(imageUrl := firstFileUrl.value)
    else if field == "name" then d.(name := value)
    else if field == "price" then d.(price := value)
    else if field == "imageUrl" then d.(imageUrl := value)
    else d
  }

  /**
   * The spread-append of a successful create: the draft becomes a product
   * whose id is the collection's length plus one and whose price is the
   * draft's text parsed by `parse`.
   */
  function AppendProduct(s: seq<Product>, d: Draft, parse: string -> Number): (r: seq<Product>)
    ensures |r| == |s| + 1
    ensures r[..|s|] == s
    ensures r[|s|].id == |s| + 1
    ensures r[|s|].name == d.name && r[|s|].imageUrl == d.imageUrl
    ensures r[|s|].price == parse(d.price)
  {
    s + [Product(|s| + 1, d.name, parse(d.price), d.imageUrl)]
  }

  // ---------------------------------------------------------------------
  // Save edit: `prev.map((p) => (p.id === buffer.id ? buffer : p))`
  // ---------------------------------------------------------------------

  /** Every product whose id is the buffer's is replaced by the buffer; the others stay as they are. */
  function ReplaceById(s: seq<Product>, b: Product): (r: seq<Product>)
    ensures |r| == |s|
    ensures forall i :: 0 <= i < |s| && s[i].id == b.id ==> r[i] == b
    ensures forall i :: 0 <= i < |s| && s[i].id != b.id ==> r[i] == s[i]
  {
    if s == [] then []
    else [if s[0].id == b.id then b else s[0]] + ReplaceById(s[1..], b)
  }

  // ---------------------------------------------------------------------
  // Delete: `prev.filter((p) => p.id !== id)`
  // ---------------------------------------------------------------------

  /** The products whose id differs from `id`, in their original order. */
  function RemoveById(s: seq<Product>, id: int): (r: seq<Product>)
    ensures |r| <= |s|
    ensures forall p :: p in r <==> p in s && p.id != id
    ensures (forall p :: p in s ==> p.id != id) ==> r == s
  {
    if s == [] then []
    else if s[0].id == id then RemoveById(s[1..], id)
    else [s[0]] + RemoveById(s[1..], id)
  }

  // ---------------------------------------------------------------------
  // Lemmas about the transforms
  // ---------------------------------------------------------------------

  /** Deleting distributes over concatenation: the kept products keep their relative order. */
  lemma {:induction false} RemoveByIdConcat(a: seq<Product>, b: seq<Product>, id: int)
    ensures RemoveById(a + b, id) == RemoveById(a, id) + RemoveById(b, id)
  {
    if a == [] {
      assert a + b == b;
    } else {
      assert (a + b)[0] == a[0];
      assert (a + b)[1..] == a[1..] + b;
      RemoveByIdConcat(a[1..], b, id);
    }
  }

  /** Deleting removes exactly as many products as carry the id. */
  lemma {:induction false} RemoveByIdLength(s: seq<Product>, id: int)
    ensures |RemoveById(s, id)| == |s| - CountId(s, id)
  {
    if s != [] {
      RemoveByIdLength(s[1..], id);
    }
  }

  /** Deleting the same id twice is deleting it once. */
  lemma RemoveByIdIdempotent(s: seq<Product>, id: int)
    ensures RemoveById(RemoveById(s, id), id) == RemoveById(s, id)
  {
  }

  /** Deleting keeps every product that remains named. */
  lemma RemoveByIdKeepsNames(s: seq<Product>, id: int)
    requires NamesPresent(s)
    ensures NamesPresent(RemoveById(s, id))
  {
  }

  /** A product in front of a list keeps the ids distinct exactly when its id is new to the list. */
  lemma IdsDistinctCons(x: Product, t: seq<Product>)
    ensures IdsDistinct([x] + t) <==> IdsDistinct(t) && forall p :: p in t ==> p.id != x.id
  {
    var r := [x] + t;
    if IdsDistinct(r) {
      forall i, j | 0 <= i < j < |t| ensures t[i].id != t[j].id {
        assert t[i] == r[i + 1] && t[j] == r[j + 1];
      }
      forall p | p in t ensures p.id != x.id {
        var k :| 0 <= k < |t| && t[k] == p;
        assert r[0] == x && r[k + 1] == p;
      }
    }
    if IdsDistinct(t) && forall p :: p in t ==> p.id != x.id {
      forall i, j | 0 <= i < j < |r| ensures r[i].id != r[j].id {
        assert r[j] == t[j - 1] && r[j] in t;
        if i > 0 {
          assert r[i] == t[i - 1];
        }
      }
    }
  }

  /** Deleting never makes two products share an id. */
  lemma {:induction false} RemoveByIdKeepsIdsDistinct(s: seq<Product>, id: int)
    requires IdsDistinct(s)
    ensures IdsDistinct(RemoveById(s, id))
  {
    if s != [] {
      assert s == [s[0]] + s[1..];
      IdsDistinctCons(s[0], s[1..]);
      RemoveByIdKeepsIdsDistinct(s[1..], id);
      if s[0].id != id {
        IdsDistinctCons(s[0], RemoveById(s[1..], id));
      }
    }
  }

  /** Saving an edit never changes the id at any position. */
  lemma ReplaceByIdKeepsIds(s: seq<Product>, b: Product)
    ensures Ids(ReplaceById(s, b)) == Ids(s)
  {
  }

  /** Saving an edit keeps every product named when the buffer passed its check. */
  lemma ReplaceByIdKeepsNames(s: seq<Product>, b: Product)
    requires NamesPresent(s)
    requires BufferFilled(b)
    ensures NamesPresent(ReplaceById(s, b))
  {
  }

  /** Saving the same buffer twice is saving it once. */
  lemma ReplaceByIdIdempotent(s: seq<Product>, b: Product)
    ensures ReplaceById(ReplaceById(s, b), b) == ReplaceById(s, b)
  {
  }

  /** With distinct ids, saving an edit replaces the one product with the buffer's id in place. */
  lemma ReplaceByIdSingle(s: seq<Product>, b: Product, k: nat)
    requires IdsDistinct(s)
    requires k < |s| && s[k].id == b.id
    ensures ReplaceById(s, b) == s[k := b]
  {
  }

  /** Appending keeps every product named when the draft passed its check. */
  lemma AppendProductKeepsNames(s: seq<Product>, d: Draft, parse: string -> Number)
    requires NamesPresent(s)
    requires DraftFilled(d)
    ensures NamesPresent(AppendProduct(s, d, parse))
  {
  }

  /**
   * The id `|s| + 1` is fresh only while every id is at most the length:
   * then appending keeps the ids distinct.
   */
  lemma AppendProductKeepsIdsDistinct(s: seq<Product>, d: Draft, parse: string -> Number)
    requires IdsDistinct(s)
    requires forall i :: 0 <= i < |s| ==> s[i].id <= |s|
    ensures IdsDistinct(AppendProduct(s, d, parse))
  {
  }

  /**
   * The collection the component starts with is named, has distinct ids,
   * and has no id above its length, so a first create keeps the ids distinct.
   */
  lemma InitialProductsWellFormed()
    ensures NamesPresent(InitialProducts)
    ensures IdsDistinct(InitialProducts)
    ensures forall i :: 0 <= i < |InitialProducts| ==> InitialProducts[i].id <= |InitialProducts|
  {
  }

  /** A create submitted right after a reset is rejected: the empty draft fails the presence check. */
  lemma EmptyDraftRejected()
    ensures !DraftFilled(EmptyDraft)
  {
  }

  /**
   * Ids are not unique: from ids [1, 2], deleting 1 and then creating a
   * product gives ids [2, 2], because the new id is the length plus one.
   */
  lemma DeleteThenCreateDuplicatesId(a: Product, b: Product, d: Draft, parse: string -> Number)
    requires a.id == 1 && b.id == 2
    ensures Ids(AppendProduct(RemoveById([a, b], 1), d, parse)) == [2, 2]
    ensures !IdsDistinct(AppendProduct(RemoveById([a, b], 1), d, parse))
  {
  }

  /**
   * The two presence checks disagree on a zero price: the create form's
   * text "0" passes, but the same product, once its price is the number 0,
   * fails the edit form's check.
   */
  lemma ZeroPriceChecks(name: string, url: string, parse: string -> Number)
    requires name != ""
    requires parse("0") == Finite(0.0)
    ensures DraftFilled(Draft(name, "0", url))
    ensures !BufferFilled(AppendProduct([], Draft(name, "0", url), parse)[0])
  {
  }
}
