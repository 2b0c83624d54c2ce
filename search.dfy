/**
 * The table rows of the admin list pages and their search filters: a row is
 * kept when the lower-cased concatenation of some of its fields, rendered as
 * a template literal renders them, contains the lower-cased search text.
 */
module Search {
  import opened Js

  /** A field as the API returns it: a string, a number, null, or a property the object does not have. */
  datatype Shown = Str(s: string) | Int(n: int) | Null | Undefined

  /** `${value}`. */
  function Render(v: Shown): (t: string)
    ensures v.Str? ==> t == v.s
    ensures v.Undefined? ==> t == "undefined"
  {
    match v
    case Str(s) => s
    case Int(n) => IntText(n)
    case Null => "null"
    case Undefined => "undefined"
  }

  /** A user as the user page reads it. */
  datatype UserRow = UserRow(id: Shown, firstName: Shown, lastName: Shown, userStatus: Shown)

  /** An investible as the investible page reads it. */
  datatype InvestibleRow = InvestibleRow(
    investibleId: Shown, location: Shown, area: Shown, preferredBusiness: Shown, landmark: Shown,
    contactPerson: Shown, contactNumber: Shown, status: Shown)

  /** A business as the business page reads it. */
  datatype BusinessRow = BusinessRow(businessId: Shown, name: Shown, address: Shown, industry: Shown, status: Shown)

  function UserText(u: UserRow): string {
    Render(u.id) + Render(u.firstName) + Render(u.lastName)
  }

  function InvestibleText(v: InvestibleRow): string {
    Render(v.investibleId) + Render(v.location) + Render(v.area) + Render(v.preferredBusiness)
    + Render(v.landmark) + Render(v.contactPerson) + Render(v.contactNumber) + Render(v.status)
  }

  function BusinessText(b: BusinessRow): string {
    Render(b.businessId) + Render(b.name) + Render(b.address) + Render(b.industry)
  }

  /** `text.toLowerCase().includes(search.toLowerCase())`. */
  predicate Matches(text: string, search: string) {
    Includes(Lower(text), Lower(search))
  }

  /** `rows.filter(r => Matches(text(r), search))`. */
  function Filter<R>(rows: seq<R>, text: R -> string, search: string): (kept: seq<R>)
    ensures forall i | 0 <= i < |kept| :: kept[i] in rows && Matches(text(kept[i]), search)
    ensures forall i | 0 <= i < |rows| :: Matches(text(rows[i]), search) ==> rows[i] in kept
    ensures |kept| <= |rows|
  {
    if rows == [] then []
    else
      var rest := Filter(rows[..|rows| - 1], text, search);
      var last := rows[|rows| - 1];
      assert rows == rows[..|rows| - 1] + [last];
      if Matches(text(last), search) then rest + [last] else rest
  }

  /** A single row is kept exactly when it matches. */
  lemma FilterSingle<R>(x: R, text: R -> string, search: string)
    ensures Filter([x], text, search) == if Matches(text(x), search) then [x] else []
  {
    assert [x][..0] == [];
  }

  /** Appending a row appends it to the filtered rows exactly when it matches. */
  lemma FilterSnoc<R>(rows: seq<R>, x: R, text: R -> string, search: string)
    ensures Filter(rows + [x], text, search) == if Matches(text(x), search) then Filter(rows, text, search) + [x] else Filter(rows, text, search)
  {
    assert (rows + [x])[..|rows|] == rows;
  }

  /** The filter keeps the table order: filtering a concatenation concatenates the filtered parts. */
  lemma {:induction false} FilterConcat<R>(a: seq<R>, b: seq<R>, text: R -> string, search: string)
    ensures Filter(a + b, text, search) == Filter(a, text, search) + Filter(b, text, search)
  {
    if b == [] {
      assert a + b == a;
    } else {
      var init := b[..|b| - 1];
      var last := b[|b| - 1];
      assert b == init + [last];
      assert a + b == (a + init) + [last];
      FilterConcat(a, init, text, search);
      FilterSnoc(a + init, last, text, search);
      FilterSnoc(init, last, text, search);
      AppendRegroup(Filter(a, text, search), Filter(init, text, search), Filter(a + init, text, search),
                    Filter(a + b, text, search), Filter(b, text, search), last, Matches(text(last), search));
    }
  }

  /** The sequence step of FilterConcat, stated without Filter. */
  lemma AppendRegroup<R>(fa: seq<R>, fi: seq<R>, fai: seq<R>, fab: seq<R>, fb: seq<R>, x: R, m: bool)
    requires fai == fa + fi
    requires fab == if m then fai + [x] else fai
    requires fb == if m then fi + [x] else fi
    ensures fab == fa + fb
  {
    if m {
      assert fa + (fi + [x]) == (fa + fi) + [x];
    }
  }

  /** When every row matches, the filter keeps the list as it is, order included. */
  lemma {:induction false} AllMatchKeepsAll<R>(rows: seq<R>, text: R -> string, search: string)
    requires forall i | 0 <= i < |rows| :: Matches(text(rows[i]), search)
    ensures Filter(rows, text, search) == rows
  {
    if rows != [] {
      var init := rows[..|rows| - 1];
      assert forall i | 0 <= i < |init| :: init[i] == rows[i];
      AllMatchKeepsAll(init, text, search);
      assert rows == init + [rows[|rows| - 1]];
    }
  }

  /** An empty search box shows every row. */
  lemma EmptySearchKeepsAll<R>(rows: seq<R>, text: R -> string)
    ensures Filter(rows, text, "") == rows
  {
    forall i | 0 <= i < |rows|
      ensures Matches(text(rows[i]), "")
    {
      IncludesEmpty(Lower(text(rows[i])));
    }
    AllMatchKeepsAll(rows, text, "");
  }

  /** Lower-casing twice is lower-casing once. */
  lemma LowerTwice(s: string)
    ensures Lower(Lower(s)) == Lower(s)
  {
  }

  /** The search ignores case: typing it in capitals keeps the same rows. */
  lemma SearchIgnoresCase<R>(rows: seq<R>, text: R -> string, search: string)
    ensures Filter(rows, text, Lower(search)) == Filter(rows, text, search)
  {
    LowerTwice(search);
  }

  /**
   * A user object with no `id` property (the user serializer names its key
   * `user_id`) renders "undefined" in front of its names, so searching for
   * "undefined", or any part of it, keeps that user whatever its names.
   */
  lemma UserWithoutIdMatchesUndefined(u: UserRow, search: string)
    requires u.id.Undefined?
    requires Includes("undefined", Lower(search))
    ensures Matches(UserText(u), search)
  {
    var t := UserText(u);
    var n := "undefined";
    assert t == n + (Render(u.firstName) + Render(u.lastName));
    var lt := Lower(t);
    assert lt[..|n|] == n;
    var q := Lower(search);
    var i :| 0 <= i <= |n| && OccursAt(n, q, i);
    assert lt[i..i + |q|] == n[i..i + |q|];
    assert OccursAt(lt, q, i);
  }
}
