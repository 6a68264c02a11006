/** The create-only seeders: practice areas matched by name whatever its case, case areas by code. */
module AreaSeeders {
  import opened Options

  const LAWYER_COUNTRIES: seq<string> := ["UK", "PH"]

  datatype PracticeArea = PracticeArea(name: string, caseArea: Option<string>)
  datatype CaseArea = CaseArea(code: string, name: string, description: string)

  datatype Row<A> = Row(country: string, area: A, isActive: bool, sortOrder: int)

  // ── What one run makes of a table ───────────────────────────────────────────────────────────

  predicate Has<A(==)>(rows: seq<Row<A>>, country: string, area: A, same: (A, A) -> bool) {
    exists r :: r in rows && r.country == country && same(r.area, area)
  }

  /** The country's last sort order, or -1 with no rows. */
  function Last<A(==)>(rows: seq<Row<A>>, country: string): int {
    if rows == [] then -1
    else
      var r, before := rows[|rows| - 1], Last(rows[..|rows| - 1], country);
      if r.country != country then before
      else if Find(rows[..|rows| - 1], country) && before > r.sortOrder then before
      else r.sortOrder
  }

  predicate Find<A(==)>(rows: seq<Row<A>>, country: string) {
    exists r :: r in rows && r.country == country
  }

  lemma {:induction false} LastIsMaximum<A>(rows: seq<Row<A>>, country: string)
    ensures forall r :: r in rows && r.country == country ==> r.sortOrder <= Last(rows, country)
    ensures Find(rows, country) ==> exists r :: r in rows && r.country == country && r.sortOrder == Last(rows, country)
    ensures !Find(rows, country) ==> Last(rows, country) == -1
  {
    if rows != [] {
      assert rows == rows[..|rows| - 1] + [rows[|rows| - 1]];
      LastIsMaximum(rows[..|rows| - 1], country);
    }
  }

  function WithDefault<A(==)>(rows: seq<Row<A>>, country: string, area: A, same: (A, A) -> bool): seq<Row<A>> {
    if Has(rows, country, area, same) then rows else rows + [Row(country, area, true, Last(rows, country) + 1)]
  }

  function WithDefaults<A(==)>(rows: seq<Row<A>>, country: string, areas: seq<A>, same: (A, A) -> bool): seq<Row<A>> {
    if areas == [] then rows
    else WithDefault(WithDefaults(rows, country, areas[..|areas| - 1], same), country, areas[|areas| - 1], same)
  }

  function Seeded<A(==)>(rows: seq<Row<A>>, countries: seq<string>, defaults: string -> seq<A>,
      same: (A, A) -> bool): seq<Row<A>> {
    if countries == [] then rows
    else
      var country := countries[|countries| - 1];
      WithDefaults(Seeded(rows, countries[..|countries| - 1], defaults, same), country, defaults(country), same)
  }

  lemma NothingYet<A>(rows: seq<Row<A>>, country: string, defaults: string -> seq<A>, same: (A, A) -> bool)
    ensures WithDefaults(rows, country, [], same) == rows && Seeded(rows, [], defaults, same) == rows
  {
  }

  lemma OneMoreArea<A>(rows: seq<Row<A>>, country: string, areas: seq<A>, k: nat, same: (A, A) -> bool)
    requires k < |areas|
    ensures WithDefaults(rows, country, areas[..k + 1], same) ==
      WithDefault(WithDefaults(rows, country, areas[..k], same), country, areas[k], same)
  {
    assert areas[..k + 1][..k] == areas[..k];
  }

  lemma OneMoreCountry<A>(rows: seq<Row<A>>, countries: seq<string>, i: nat, defaults: string -> seq<A>,
      same: (A, A) -> bool)
    requires i < |countries|
    ensures Seeded(rows, countries[..i + 1], defaults, same) ==
      WithDefaults(Seeded(rows, countries[..i], defaults, same), countries[i], defaults(countries[i]), same)
  {
    assert countries[..i + 1][..i] == countries[..i];
  }

  // ── What every run keeps and makes true ─────────────────────────────────────────────────────

  /** Rows are only added at the end, each after every row of its country before it, each for an area
    * that no row before it had. */
  ghost predicate Extends<A(!new)>(before: seq<Row<A>>, rows: seq<Row<A>>, same: (A, A) -> bool) {
    && before <= rows
    && forall i :: |before| <= i < |rows| ==>
         && !Has(rows[..i], rows[i].country, rows[i].area, same) && rows[i].isActive
         && rows[i].sortOrder == Last(rows[..i], rows[i].country) + 1
         && forall k :: 0 <= k < i && rows[k].country == rows[i].country ==> rows[k].sortOrder < rows[i].sortOrder
  }

  lemma ExtendsOneMore<A(!new)>(before: seq<Row<A>>, rows: seq<Row<A>>, country: string, area: A, same: (A, A) -> bool)
    requires Extends(before, rows, same)
    ensures Extends(before, WithDefault(rows, country, area, same), same)
  {
    var more := WithDefault(rows, country, area, same);
    LastIsMaximum(rows, country);
    forall i | |before| <= i < |more|
      ensures !Has(more[..i], more[i].country, more[i].area, same) && more[i].isActive
      ensures more[i].sortOrder == Last(more[..i], more[i].country) + 1
      ensures forall k :: 0 <= k < i && more[k].country == more[i].country ==> more[k].sortOrder < more[i].sortOrder
    {
      assert more[..i] == rows[..i];
      if i == |rows| {
        assert rows[..i] == rows;
      }
    }
  }

  lemma {:induction false} ExtendsMore<A(!new)>(before: seq<Row<A>>, rows: seq<Row<A>>, country: string,
      areas: seq<A>, same: (A, A) -> bool)
    requires Extends(before, rows, same)
    ensures Extends(before, WithDefaults(rows, country, areas, same), same)
    ensures rows <= WithDefaults(rows, country, areas, same)
  {
    if areas != [] {
      ExtendsMore(before, rows, country, areas[..|areas| - 1], same);
      ExtendsOneMore(before, WithDefaults(rows, country, areas[..|areas| - 1], same), country, areas[|areas| - 1],
        same);
    }
  }

  /** A run leaves every row as it was, and puts what it adds at the end. */
  lemma {:induction false} SeededExtends<A(!new)>(rows: seq<Row<A>>, countries: seq<string>,
      defaults: string -> seq<A>, same: (A, A) -> bool)
    ensures Extends(rows, Seeded(rows, countries, defaults, same), same)
  {
    if countries != [] {
      var country := countries[|countries| - 1];
      SeededExtends(rows, countries[..|countries| - 1], defaults, same);
      ExtendsMore(rows, Seeded(rows, countries[..|countries| - 1], defaults, same), country, defaults(country), same);
    }
  }

  /** Every row after the first `n` is a default of one of the countries. */
  ghost predicate OnlyDefaults<A(!new)>(rows: seq<Row<A>>, n: nat, countries: seq<string>, defaults: string -> seq<A>) {
    forall i :: n <= i < |rows| ==> rows[i].country in countries && rows[i].area in defaults(rows[i].country)
  }

  lemma {:induction false} CountryDefaults<A(!new)>(rows: seq<Row<A>>, country: string, areas: seq<A>,
      same: (A, A) -> bool)
    ensures var after := WithDefaults(rows, country, areas, same);
      rows <= after && forall i :: |rows| <= i < |after| ==> after[i].country == country && after[i].area in areas
  {
    if areas != [] {
      CountryDefaults(rows, country, areas[..|areas| - 1], same);
      assert areas[|areas| - 1] in areas;
    }
  }

  /** A run adds nothing but defaults of its countries. */
  lemma {:induction false} NothingElseAdded<A(!new)>(rows: seq<Row<A>>, countries: seq<string>,
      defaults: string -> seq<A>, same: (A, A) -> bool)
    ensures rows <= Seeded(rows, countries, defaults, same)
    ensures OnlyDefaults(Seeded(rows, countries, defaults, same), |rows|, countries, defaults)
  {
    if countries != [] {
      var rest, country := countries[..|countries| - 1], countries[|countries| - 1];
      NothingElseAdded(rows, rest, defaults, same);
      CountryDefaults(Seeded(rows, rest, defaults, same), country, defaults(country), same);
      assert forall c :: c in rest ==> c in countries;
    }
  }

  ghost predicate Reflexive<A(!new)>(same: (A, A) -> bool) { forall a :: same(a, a) }

  lemma {:induction false} AllThere<A(!new)>(rows: seq<Row<A>>, country: string, areas: seq<A>, same: (A, A) -> bool)
    requires Reflexive(same)
    ensures forall a :: a in areas ==> Has(WithDefaults(rows, country, areas, same), country, a, same)
  {
    if areas != [] {
      var rest, last := areas[..|areas| - 1], areas[|areas| - 1];
      var before := WithDefaults(rows, country, rest, same);
      AllThere(rows, country, rest, same);
      assert before <= WithDefault(before, country, last, same);
      var after := WithDefaults(rows, country, areas, same);
      forall a | a in areas
        ensures Has(after, country, a, same)
      {
        if a in rest {
          StillHas(before, after, country, a, same);
        } else if !Has(before, country, last, same) {
          assert after[|after| - 1].area == last;
        }
      }
    }
  }

  lemma StillHas<A(!new)>(before: seq<Row<A>>, after: seq<Row<A>>, country: string, area: A, same: (A, A) -> bool)
    requires before <= after && Has(before, country, area, same)
    ensures Has(after, country, area, same)
  {
    var r :| r in before && r.country == country && same(r.area, area);
    assert r in after;
  }

  /** After a run every default is there. */
  lemma {:induction false} EveryDefaultThere<A(!new)>(rows: seq<Row<A>>, countries: seq<string>,
      defaults: string -> seq<A>, same: (A, A) -> bool)
    requires Reflexive(same)
    ensures forall c, a :: c in countries && a in defaults(c) ==>
      Has(Seeded(rows, countries, defaults, same), c, a, same)
  {
    if countries != [] {
      var rest, last := countries[..|countries| - 1], countries[|countries| - 1];
      var before := Seeded(rows, rest, defaults, same);
      EveryDefaultThere(rows, rest, defaults, same);
      AllThere(before, last, defaults(last), same);
      SeededExtends(rows, rest, defaults, same);
      ExtendsMore(rows, before, last, defaults(last), same);
      forall c, a | c in countries && a in defaults(c)
        ensures Has(Seeded(rows, countries, defaults, same), c, a, same)
      {
        if c in rest {
          StillHas(before, Seeded(rows, countries, defaults, same), c, a, same);
        }
      }
    }
  }

  lemma {:induction false} NothingToAdd<A(!new)>(rows: seq<Row<A>>, country: string, areas: seq<A>,
      same: (A, A) -> bool)
    requires forall a :: a in areas ==> Has(rows, country, a, same)
    ensures WithDefaults(rows, country, areas, same) == rows
  {
    if areas != [] {
      NothingToAdd(rows, country, areas[..|areas| - 1], same);
    }
  }

  lemma {:induction false} NothingToSeed<A(!new)>(rows: seq<Row<A>>, countries: seq<string>,
      defaults: string -> seq<A>, same: (A, A) -> bool)
    requires forall c, a :: c in countries && a in defaults(c) ==> Has(rows, c, a, same)
    ensures Seeded(rows, countries, defaults, same) == rows
  {
    if countries != [] {
      var country := countries[|countries| - 1];
      NothingToSeed(rows, countries[..|countries| - 1], defaults, same);
      NothingToAdd(rows, country, defaults(country), same);
    }
  }

  /** A second run changes nothing. */
  lemma SecondRunAddsNothing<A(!new)>(rows: seq<Row<A>>, countries: seq<string>, defaults: string -> seq<A>,
      same: (A, A) -> bool)
    requires Reflexive(same)
    ensures Seeded(Seeded(rows, countries, defaults, same), countries, defaults, same)
         == Seeded(rows, countries, defaults, same)
  {
    EveryDefaultThere(rows, countries, defaults, same);
    NothingToSeed(Seeded(rows, countries, defaults, same), countries, defaults, same);
  }

  /** No two rows of a country are for the same area. */
  ghost predicate Unique<A(!new)>(rows: seq<Row<A>>, same: (A, A) -> bool) {
    forall i, k :: 0 <= i < k < |rows| && rows[i].country == rows[k].country ==> !same(rows[i].area, rows[k].area)
  }

  /** A run never adds a second row for an area, so the table's unique key is never broken. */
  lemma StaysUnique<A(!new)>(rows: seq<Row<A>>, countries: seq<string>, defaults: string -> seq<A>,
      same: (A, A) -> bool)
    requires Unique(rows, same)
    ensures Unique(Seeded(rows, countries, defaults, same), same)
  {
    SeededExtends(rows, countries, defaults, same);
    var after := Seeded(rows, countries, defaults, same);
    forall i, k | 0 <= i < k < |after| && after[i].country == after[k].country
      ensures !same(after[i].area, after[k].area)
    {
      if k < |rows| {
        assert after[i] == rows[i] && after[k] == rows[k];
      } else {
        assert after[i] == after[..k][i];
        assert after[i] in after[..k];
      }
    }
  }

  // ── The seeders ─────────────────────────────────────────────────────────────────────────────

  function Lower(c: char): char {
    if 'A' <= c <= 'Z' then c - 'A' + 'a' else c
  }

  function Folded(s: string): string {
    seq(|s|, i requires 0 <= i < |s| => Lower(s[i]))
  }

  predicate SameName(a: PracticeArea, b: PracticeArea) { Folded(a.name) == Folded(b.name) }

  predicate OtherCase(a: char, b: char) {
    ('a' <= a <= 'z' && b as int == a as int - 32) || ('a' <= b <= 'z' && a as int == b as int - 32)
  }

  /** Names are the same when they differ at most in the case of letters. */
  lemma SameNameExactly(a: PracticeArea, b: PracticeArea)
    ensures SameName(a, b) <==>
      && |a.name| == |b.name|
      && forall i :: 0 <= i < |a.name| ==> a.name[i] == b.name[i] || OtherCase(a.name[i], b.name[i])
  {
    if SameName(a, b) {
      forall i | 0 <= i < |a.name|
        ensures a.name[i] == b.name[i] || OtherCase(a.name[i], b.name[i])
      {
        assert Folded(a.name)[i] == Folded(b.name)[i];
      }
    }
  }

  predicate SameCode(a: CaseArea, b: CaseArea) { a.code == b.code }

  class Table<A(==)> {
    var rows: seq<Row<A>>

    constructor (rows: seq<Row<A>>)
      ensures this.rows == rows
    {
      this.rows := rows;
    }

    /** Puts back each missing default at the end of its country's list, one country after another. */
    method Seed(countries: seq<string>, defaults: string -> seq<A>, same: (A, A) -> bool)
      modifies this
      ensures rows == Seeded(old(rows), countries, defaults, same)
    {
      hide WithDefaults, Seeded, Has, Last;
      NothingYet(rows, "", defaults, same);
      for i := 0 to |countries|
        invariant rows == Seeded(old(rows), countries[..i], defaults, same)
      {
        var country, before := countries[i], rows;
        var areas := defaults(country);
        NothingYet(before, country, defaults, same);
        for k := 0 to |areas|
          invariant rows == WithDefaults(before, country, areas[..k], same)
        {
          OneMoreArea(before, country, areas, k, same);
          if Has(rows, country, areas[k], same) {
            continue;
          }
          rows := rows + [Row(country, areas[k], true, Last(rows, country) + 1)];
        }
        assert areas[..|areas|] == areas;
        OneMoreCountry(old(rows), countries, i, defaults, same);
      }
      assert countries[..|countries|] == countries;
    }
  }

  method SeedPracticeAreas(table: Table<PracticeArea>, defaults: string -> seq<PracticeArea>)
    modifies table
    ensures Extends(old(table.rows), table.rows, SameName)
    ensures forall c, a :: c in ["UK", "PH"] && a in defaults(c) ==> Has(table.rows, c, a, SameName)
    ensures Seeded(table.rows, LAWYER_COUNTRIES, defaults, SameName) == table.rows
  {
    table.Seed(LAWYER_COUNTRIES, defaults, SameName);
    SeededExtends(old(table.rows), LAWYER_COUNTRIES, defaults, SameName);
    EveryDefaultThere(old(table.rows), LAWYER_COUNTRIES, defaults, SameName);
    SecondRunAddsNothing(old(table.rows), LAWYER_COUNTRIES, defaults, SameName);
  }

  /** Case areas have a unique key, country and code. */
  method SeedCaseAreas(table: Table<CaseArea>, defaults: string -> seq<CaseArea>)
    requires Unique(table.rows, SameCode)
    modifies table
    ensures Extends(old(table.rows), table.rows, SameCode) && Unique(table.rows, SameCode)
    ensures forall c, a :: c in ["UK", "PH"] && a in defaults(c) ==> Has(table.rows, c, a, SameCode)
    ensures Seeded(table.rows, LAWYER_COUNTRIES, defaults, SameCode) == table.rows
  {
    table.Seed(LAWYER_COUNTRIES, defaults, SameCode);
    SeededExtends(old(table.rows), LAWYER_COUNTRIES, defaults, SameCode);
    StaysUnique(old(table.rows), LAWYER_COUNTRIES, defaults, SameCode);
    EveryDefaultThere(old(table.rows), LAWYER_COUNTRIES, defaults, SameCode);
    SecondRunAddsNothing(old(table.rows), LAWYER_COUNTRIES, defaults, SameCode);
  }
}
