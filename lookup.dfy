/** Name resolution: the platform's `partialName`/`take` search, and the script's client-side
    narrowing to the first exact match (`[a for a in json["Items"] if a["Name"] == name.strip()]`). */
module Lookup {
  import opened Wrappers
  import opened Text
  import opened Collections

  /** `take=1000`: the largest page the script asks for. */
  const PageSize: nat := 1000

  /** The (Id, Name) pair of any listed resource. */
  datatype Item = Item(id: string, name: string)

  /** The first `PageSize` elements of a listing, or all of it when it is shorter. */
  function Page<T>(s: seq<T>): (r: seq<T>)
    ensures |r| <= PageSize && r <= s
    ensures |s| <= PageSize ==> r == s
    ensures |s| > PageSize ==> r == s[..PageSize]
  {
    if |s| <= PageSize then s else s[..PageSize]
  }

  /** The listed items whose name contains `partial`, in listing order (server side). */
  function PartialMatches(items: seq<Item>, partial: string): seq<Item> {
    Filter(items, (a: Item) => Contains(a.name, partial))
  }

  /** The items whose name is exactly `name`, in listing order (client side). */
  function ExactMatches(items: seq<Item>, name: string): seq<Item> {
    Filter(items, (a: Item) => a.name == name)
  }

  /** `filtered_items[0]["Id"]`, or `None` when nothing matched exactly. */
  function FirstExactId(items: seq<Item>, name: string): (r: Option<string>)
    ensures r.None? <==> forall a :: a in items ==> a.name != name
    ensures r.Some? ==> exists a :: a in items && a.name == name && a.id == r.value
  {
    var exact := ExactMatches(items, name);
    if |exact| == 0 then None else (assert exact[0] in exact; Some(exact[0].id))
  }

  /** What one resolver call returns for a non-blank name: search the listing for the stripped
      name, take one page, keep the first exact match. */
  function ResolveName(listing: seq<Item>, name: string): Option<string> {
    var wanted := Strip(name);
    FirstExactId(Page(PartialMatches(listing, wanted)), wanted)
  }

  /** The first exact match is the FIRST item with that name: no earlier item is called `name`. */
  lemma {:induction false} FirstExactIdIsFirst(items: seq<Item>, name: string)
    requires FirstExactId(items, name).Some?
    ensures exists i :: (0 <= i < |items| && items[i].name == name && items[i].id == FirstExactId(items, name).value
      && forall j :: 0 <= j < i ==> items[j].name != name)
  {
    if items[0].name == name {
      assert ExactMatches(items, name)[0] == items[0];
    } else {
      assert ExactMatches(items, name) == ExactMatches(items[1..], name);
      FirstExactIdIsFirst(items[1..], name);
      var i :| 0 <= i < |items[1..]| && items[1..][i].name == name && items[1..][i].id == FirstExactId(items, name).value
        && forall j :: 0 <= j < i ==> items[1..][j].name != name;
      assert items[i + 1] == items[1..][i];
      forall j | 0 <= j < i + 1 ensures items[j].name != name {
        if j > 0 { assert items[j] == items[1..][j - 1]; }
      }
    }
  }

  /** Items that only partially match never change the outcome: narrowing the partial-name
      matches to exact matches gives the same list as narrowing the whole listing. */
  lemma {:induction false} ExactWithinPartial(items: seq<Item>, name: string)
    ensures ExactMatches(PartialMatches(items, name), name) == ExactMatches(items, name)
  {
    if items != [] {
      var partial := (a: Item) => Contains(a.name, name);
      var exact := (a: Item) => a.name == name;
      var head := if partial(items[0]) then [items[0]] else [];
      assert PartialMatches(items, name) == head + PartialMatches(items[1..], name);
      FilterAppend(head, PartialMatches(items[1..], name), exact);
      ExactWithinPartial(items[1..], name);
      ContainsSelf(items[0].name);
      assert Filter(head, exact) == if exact(items[0]) then [items[0]] else [];
    }
  }

  /** While the partial-name matches fit in one page, a resolver call returns the id of the first
      item of the whole listing whose name equals the stripped name, whatever partially matches. */
  lemma ResolveNameFindsFirstExact(listing: seq<Item>, name: string)
    requires |PartialMatches(listing, Strip(name))| <= PageSize
    ensures ResolveName(listing, name) == FirstExactId(listing, Strip(name))
  {
    ExactWithinPartial(listing, Strip(name));
  }

  /** An item added at the end of a listing that had no exact match is what the next lookup finds. */
  lemma AppendedIsFirstExact(items: seq<Item>, x: Item, name: string)
    requires FirstExactId(items, name).None?
    requires x.name == name
    ensures FirstExactId(items + [x], name) == Some(x.id)
  {
    FilterAppend(items, [x], (a: Item) => a.name == name);
  }

  /** Find-or-create converges: when a lookup found nothing and an item named `name` (with no
      surrounding whitespace) is appended, the same lookup now returns that item's id, provided the
      partial-name matches still fit in one page. */
  lemma CreatedIsFound(listing: seq<Item>, id: string, name: string)
    requires Strip(name) == name
    requires |PartialMatches(listing, name)| < PageSize
    requires ResolveName(listing, name).None?
    ensures ResolveName(listing + [Item(id, name)], name) == Some(id)
  {
    var keep := (a: Item) => Contains(a.name, name);
    FilterAppend(listing, [Item(id, name)], keep);
    ContainsSelf(name);
    assert PartialMatches(listing + [Item(id, name)], name) == PartialMatches(listing, name) + [Item(id, name)];
    ResolveNameFindsFirstExact(listing, name);
    ResolveNameFindsFirstExact(listing + [Item(id, name)], name);
    AppendedIsFirstExact(listing, Item(id, name), name);
  }

  /** Whatever the listing's size, an id the lookup returns belongs to a listed item whose name
      is exactly the stripped name. */
  lemma ResolveNameSound(listing: seq<Item>, name: string)
    requires ResolveName(listing, name).Some?
    ensures Item(ResolveName(listing, name).value, Strip(name)) in listing
  {
    var wanted := Strip(name);
    var page := Page(PartialMatches(listing, wanted));
    var a :| a in page && a.name == wanted && a.id == ResolveName(listing, name).value;
    assert a in PartialMatches(listing, wanted);
  }

  /** Exact-name resolution: an id is returned only for a listed item whose name is exactly the
      stripped name; while the partial-name matches fit in one page it is the id of the FIRST such
      item, and nothing is returned only when there is none. */
  lemma ResolveNameIsFirstExact(listing: seq<Item>, name: string)
    ensures var r := ResolveName(listing, name);
      r.Some? ==> Item(r.value, Strip(name)) in listing
    ensures var r := ResolveName(listing, name);
      |PartialMatches(listing, Strip(name))| <= PageSize ==>
        && (r.None? <==> forall a :: a in listing ==> a.name != Strip(name))
        && (r.Some? ==> exists i :: (0 <= i < |listing| && listing[i] == Item(r.value, Strip(name))
              && forall j :: 0 <= j < i ==> listing[j].name != Strip(name)))
  {
    if ResolveName(listing, name).Some? {
      ResolveNameSound(listing, name);
    }
    if |PartialMatches(listing, Strip(name))| <= PageSize {
      ResolveNameFindsFirstExact(listing, name);
      if ResolveName(listing, name).Some? {
        FirstExactIdIsFirst(listing, Strip(name));
      }
    }
  }

  /** The other side of `CreatedIsFound`: an item appended under a name WITH surrounding
      whitespace is never what the lookup of that name finds, so a lookup that found nothing still
      finds nothing, whatever the listing's size. */
  lemma PaddedIsNotFound(listing: seq<Item>, id: string, name: string)
    requires Strip(name) != name
    requires ResolveName(listing, name).None?
    ensures ResolveName(listing + [Item(id, name)], name).None?
  {
    var wanted := Strip(name);
    var x := Item(id, name);
    var before := PartialMatches(listing, wanted);
    var after := PartialMatches(listing + [x], wanted);
    FilterAppend(listing, [x], (a: Item) => Contains(a.name, wanted));
    assert after == before + PartialMatches([x], wanted);
    var page := Page(after);
    forall a | a in page ensures a.name != wanted {
      if |before| >= PageSize {
        assert page == Page(before) by {
          assert before[..PageSize] == after[..PageSize];
        }
      } else if a !in before {
        assert a in PartialMatches([x], wanted);
      }
    }
  }

  /** A name with surrounding whitespace is stored as given but looked up stripped: an item created
      under " feature" is not found by the lookup for " feature". */
  lemma UntrimmedNameIsNotFound()
    ensures ResolveName([Item("Environments-1", " feature")], " feature").None?
  {
    StripLeadingSpace();
    var listing := [Item("Environments-1", " feature")];
    var matches := Page(PartialMatches(listing, "feature"));
    assert forall a :: a in matches ==> a in listing;
  }

  /** `" feature".strip()` is `"feature"`. */
  lemma StripLeadingSpace()
    ensures Strip(" feature") == "feature"
  {
    var given, stripped := " feature", "feature";
    assert given[1..] == stripped;
    assert IsSpace(given[0]) && !IsSpace(stripped[0]) && !IsSpace(stripped[|stripped| - 1]);
    assert TrimStart(given) == stripped;
    assert TrimEnd(stripped) == stripped;
  }
}
