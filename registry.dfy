/**
 * The alias registry: every alias names a non-empty list of IBANs, the most
 * recently registered one last. An identifier resolves either as an alias
 * (to the last IBAN under it) or as an IBAN stored under some alias (to itself).
 */
module Registry {
  import opened Wrappers
  import Records

  /** Java's `s.trim().isEmpty()`: every character is at most U+0020. */
  predicate Blank(s: string) {
    forall i :: 0 <= i < |s| ==> s[i] <= ' '
  }

  /** The arguments `registerIBAN` accepts: both present and both non-blank. */
  predicate Registrable(iban: Option<string>, alias: Option<string>) {
    iban.Some? && !Blank(iban.value) && alias.Some? && !Blank(alias.value)
  }

  /** Every alias key maps to a non-empty list. */
  ghost predicate NonEmptyLists(m: map<string, seq<string>>) {
    forall a :: a in m ==> |m[a]| > 0
  }

  /** Only non-blank IBANs are ever stored. */
  ghost predicate NonBlankValues(m: map<string, seq<string>>) {
    forall a, i :: a in m && 0 <= i < |m[a]| ==> !Blank(m[a][i])
  }

  /** The registry invariant. */
  ghost predicate Wellformed(m: map<string, seq<string>>) {
    NonEmptyLists(m) && NonBlankValues(m)
  }

  /** The identifier is stored as an IBAN under some alias. */
  ghost predicate Stored(m: map<string, seq<string>>, x: string) {
    exists a :: a in m && x in m[a]
  }

  /** The registry after `registerIBAN(iban, alias)`: the IBAN is appended under the alias. */
  function Registered(m: map<string, seq<string>>, iban: Option<string>, alias: Option<string>): (r: map<string, seq<string>>)
    ensures Registrable(iban, alias) ==> alias.value in r && r[alias.value] == (if alias.value in m then m[alias.value] else []) + [iban.value]
    ensures Registrable(iban, alias) ==> forall a :: a in m && a != alias.value ==> a in r && r[a] == m[a]
    ensures Registrable(iban, alias) ==> r.Keys == m.Keys + {alias.value}
    ensures !Registrable(iban, alias) ==> r == m
  {
    if Registrable(iban, alias) then
      m[alias.value := (if alias.value in m then m[alias.value] else []) + [iban.value]]
    else m
  }

  /** What `getIBAN(x)` returns: the last IBAN under alias x, else x when it is stored, else nothing. */
  ghost function Resolved(m: map<string, seq<string>>, x: string): (r: Option<string>)
    requires NonEmptyLists(m)
    ensures x in m ==> r == Some(m[x][|m[x]| - 1])
    ensures x !in m && Stored(m, x) ==> r == Some(x)
    ensures x !in m && !Stored(m, x) ==> r == None
  {
    if x in m then Some(m[x][|m[x]| - 1])
    else if Stored(m, x) then Some(x)
    else None
  }

  /** The registry after removing one occurrence of `x` from the list under alias `a`, dropping the alias if it empties. */
  function RemovedFrom(m: map<string, seq<string>>, a: string, x: string): (r: map<string, seq<string>>)
    requires a in m
    ensures |Records.RemoveFirst(m[a], x)| == 0 ==> r == m - {a}
    ensures |Records.RemoveFirst(m[a], x)| > 0 ==> r == m[a := Records.RemoveFirst(m[a], x)]
  {
    var rest := Records.RemoveFirst(m[a], x);
    if |rest| == 0 then m - {a} else m[a := rest]
  }

  /** Registration keeps every list non-empty and every stored IBAN non-blank. */
  lemma RegisteredKeepsLists(m: map<string, seq<string>>, iban: Option<string>, alias: Option<string>)
    requires Wellformed(m)
    ensures Wellformed(Registered(m, iban, alias))
  {
    var r := Registered(m, iban, alias);
    if Registrable(iban, alias) {
      forall a, i | a in r && 0 <= i < |r[a]| ensures !Blank(r[a][i]) {
        if a == alias.value && i == |r[a]| - 1 {
          assert r[a][i] == iban.value;
        } else if a == alias.value {
          assert r[a][i] == m[a][i];
        }
      }
    }
  }

  /** Removal keeps every list non-empty, because an emptied alias is dropped, and stores nothing new. */
  lemma RemovedKeepsLists(m: map<string, seq<string>>, a: string, x: string)
    requires Wellformed(m) && a in m
    ensures Wellformed(RemovedFrom(m, a, x))
  {
    var r := RemovedFrom(m, a, x);
    forall b, i | b in r && 0 <= i < |r[b]| ensures !Blank(r[b][i]) {
      if b == a {
        assert r[b][i] in multiset(r[b]);
        assert r[b][i] in multiset(m[a]);
      }
    }
  }

  /** A well-formed registry resolves every identifier to nothing or to a non-blank IBAN. */
  lemma ResolvedNotBlank(m: map<string, seq<string>>, x: string)
    requires Wellformed(m)
    ensures Resolved(m, x).Some? ==> !Blank(Resolved(m, x).value)
  {
    if x !in m && Stored(m, x) {
      var a :| a in m && x in m[a];
      var i :| 0 <= i < |m[a]| && m[a][i] == x;
    }
  }

  /** After a successful registration the alias resolves to the new IBAN. */
  lemma RegisterThenResolve(m: map<string, seq<string>>, iban: Option<string>, alias: Option<string>)
    requires Wellformed(m) && Registrable(iban, alias)
    ensures Wellformed(Registered(m, iban, alias))
    ensures Resolved(Registered(m, iban, alias), alias.value) == iban
  {
    RegisteredKeepsLists(m, iban, alias);
  }

  /** Removing `x` from an alias whose list holds it takes away exactly one stored IBAN, and it is `x`. */
  lemma RemovedExactlyOne(m: map<string, seq<string>>, a: string, x: string)
    requires a in m && x in m[a]
    ensures a in RemovedFrom(m, a, x) ==> multiset(RemovedFrom(m, a, x)[a]) == multiset(m[a]) - multiset{x}
    ensures a !in RemovedFrom(m, a, x) ==> m[a] == [x]
    ensures forall b :: b in m && b != a ==> b in RemovedFrom(m, a, x) && RemovedFrom(m, a, x)[b] == m[b]
  {
    var rest := Records.RemoveFirst(m[a], x);
    if |rest| == 0 {
      assert |m[a]| == 1;
      assert m[a] == [m[a][0]];
      assert m[a][0] in multiset(m[a]);
    }
  }

  class IBANRegistry {
    var aliases: map<string, seq<string>>

    ghost predicate Valid()
      reads this
    {
      Wellformed(aliases)
    }

    constructor ()
      ensures Valid() && aliases == map[]
    {
      aliases := map[];
    }

    /** Appends the IBAN under the alias; a missing or blank argument leaves the registry as it was. */
    method RegisterIBAN(iban: Option<string>, alias: Option<string>)
      requires Valid()
      modifies this
      ensures Valid()
      ensures aliases == Registered(old(aliases), iban, alias)
      ensures Registrable(iban, alias) ==> Resolved(aliases, alias.value) == iban
      ensures !Registrable(iban, alias) ==> aliases == old(aliases)
    {
      if iban.None? || Blank(iban.value) || alias.None? || Blank(alias.value) {
        return;
      }
      var list := if alias.value in aliases then aliases[alias.value] else [];
      aliases := aliases[alias.value := list + [iban.value]];
      RegisterThenResolve(old(aliases), iban, alias);
    }

    /** Resolves an alias or an IBAN, scanning the entries when the identifier is not an alias. */
    method GetIBAN(identifier: string) returns (r: Option<string>)
      requires Valid()
      ensures r == Resolved(aliases, identifier)
    {
      if identifier in aliases {
        var list := aliases[identifier];
        return Some(list[|list| - 1]);
      }
      var rest := aliases.Keys;
      while rest != {}
        invariant rest <= aliases.Keys
        invariant forall a :: a in aliases && a !in rest ==> identifier !in aliases[a]
        decreases rest
      {
        var a :| a in rest;
        if identifier in aliases[a] {
          return Some(identifier);
        }
        rest := rest - {a};
      }
      return None;
    }

    /**
     * Removes one occurrence of the identifier from the list of some alias that
     * holds it (which alias is left open, as the source scans a hash map), and
     * drops that alias when its list becomes empty.
     */
    method RemoveIBAN(identifier: Option<string>) returns (ok: bool)
      requires Valid()
      modifies this
      ensures Valid()
      ensures ok <==> identifier.Some? && Stored(old(aliases), identifier.value)
      ensures !ok ==> aliases == old(aliases)
      ensures ok ==> exists a :: a in old(aliases) && identifier.value in old(aliases)[a] && aliases == RemovedFrom(old(aliases), a, identifier.value)
    {
      if identifier.None? {
        return false;
      }
      var x := identifier.value;
      var rest := aliases.Keys;
      while rest != {}
        invariant rest <= aliases.Keys
        invariant forall a :: a in aliases && a !in rest ==> x !in aliases[a]
        invariant aliases == old(aliases)
        decreases rest
      {
        var a :| a in rest;
        if x in aliases[a] {
          var list := Records.RemoveFirst(aliases[a], x);
          if |list| == 0 {
            aliases := aliases - {a};
          } else {
            aliases := aliases[a := list];
          }
          RemovedKeepsLists(old(aliases), a, x);
          return true;
        }
        rest := rest - {a};
      }
      return false;
    }

    /**
     * Moves the IBAN that `currentIdentifier` resolves to under `newAlias`:
     * refused when an argument is missing, when the identifier resolves to
     * nothing, or when it is not itself stored as an IBAN (so nothing can be removed).
     */
    method UpdateAlias(currentIdentifier: Option<string>, newAlias: Option<string>) returns (ok: bool)
      requires Valid()
      modifies this
      ensures Valid()
      ensures ok <==> currentIdentifier.Some? && newAlias.Some? && Stored(old(aliases), currentIdentifier.value)
      ensures !ok ==> aliases == old(aliases)
      ensures ok ==> exists a :: a in old(aliases) && currentIdentifier.value in old(aliases)[a]
                       && aliases == Registered(RemovedFrom(old(aliases), a, currentIdentifier.value),
                                                Resolved(old(aliases), currentIdentifier.value), newAlias)
      ensures ok && !Blank(newAlias.value) ==> Resolved(aliases, newAlias.value) == Resolved(old(aliases), currentIdentifier.value)
    {
      if currentIdentifier.None? || newAlias.None? {
        return false;
      }
      var existing := GetIBAN(currentIdentifier.value);
      if existing.None? {
        return false;
      }
      ghost var before := aliases;
      ok := RemoveIBAN(currentIdentifier);
      if !ok {
        return false;
      }
      assert !Blank(existing.value) by {
        ResolvedNotBlank(before, currentIdentifier.value);
      }
      RegisterIBAN(existing, newAlias);
      ok := true;
    }
  }
}
