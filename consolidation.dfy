/**
 * How the performer merge builds the destination's update (`update_input`): the
 * destination's own fields, then each source folded in, in enumeration order.
 */
module Consolidation {
  import opened Records
  import opened Sequences
  import opened DirectiveTags

  /**
   * The scalar fields copied by the field loops, in loop order. The loops also
   * visit "aliases" first; that field is kept apart in `aliases`.
   */
  const AttrKeys: seq<Key> := [
    "gender", "birthdate", "death_date", "country", "ethnicity", "hair_color",
    "eye_color", "height_cm", "weight", "measurements", "fake_tits", "tattoos",
    "piercings", "career_length", "url", "twitter", "instagram", "details"]

  function Lookup(attrs: map<Key, Value>, k: Key): Option<Value>
  {
    if k in attrs then Some(attrs[k]) else None
  }

  /** Python's `x in s` on strings. */
  predicate IsSubstring(x: string, s: string)
  {
    exists i :: 0 <= i <= |s| && x <= s[i..]
  }

  lemma SubstringExtend(x: string, s: string, t: string)
    requires IsSubstring(x, s)
    ensures IsSubstring(x, s + t)
  {
    var i :| 0 <= i <= |s| && x <= s[i..];
    assert (s + t)[i..] == s[i..] + t;
  }

  lemma SubstringSuffix(x: string, s: string)
    ensures IsSubstring(x, s + x)
  {
    assert (s + x)[|s|..] == x;
  }

  /**
   * A field loop over `keys`: each key that `attrs` lacks and `from` holds is copied
   * from `from`; keys `attrs` already holds keep their value.
   */
  function Filled(attrs: map<Key, Value>, from: map<Key, Value>, keys: seq<Key>): (r: map<Key, Value>)
    ensures forall k :: k in r <==> k in attrs || (k in keys && k in from)
    ensures forall k :: k in r ==> r[k] == if k in attrs then attrs[k] else from[k]
  {
    if keys == [] then attrs
    else
      var front, k := keys[..|keys| - 1], keys[|keys| - 1];
      assert keys == front + [k];
      var m := Filled(attrs, from, front);
      if k !in m && k in from then m[k := from[k]] else m
  }

  /** The field loop `for key in keys: if key is unset and the performer has it: copy it`. */
  method FillMissing(attrs: map<Key, Value>, from: map<Key, Value>, keys: seq<Key>) returns (r: map<Key, Value>)
    ensures r == Filled(attrs, from, keys)
  {
    r := attrs;
    for i := 0 to |keys|
      invariant r == Filled(attrs, from, keys[..i])
    {
      var k := keys[i];
      assert keys[..i + 1][..i] == keys[..i];
      if k !in r && k in from {
        r := r[k := from[k]];
      }
    }
    assert keys[..|keys|] == keys;
  }

  /** The update before any source is folded in (the destination's fields and retained tags). */
  function InitialUpdate(dest: Performer, fromTag: Id, intoTag: Id): (r: PerformerUpdate)
    ensures r.id == dest.id && r.name == dest.name && r.favorite == dest.favorite
    ensures r.aliases == dest.aliases && r.stashIds == dest.stashIds
    ensures forall k :: Lookup(r.attrs, k) == if k in AttrKeys then Lookup(dest.attrs, k) else None
    ensures forall t :: t in r.tagIds <==> t in dest.tags && t != fromTag && t != intoTag
  {
    PerformerUpdate(dest.id, dest.name, dest.aliases, Filled(map[], dest.attrs, AttrKeys),
                    dest.favorite, dest.stashIds, Strip(dest.tags, fromTag, intoTag))
  }

  /** The start of `update_input`: the destination's fields, and its tags without the two merge tags. */
  method StartUpdate(dest: Performer, fromTag: Id, intoTag: Id) returns (u: PerformerUpdate)
    ensures u == InitialUpdate(dest, fromTag, intoTag)
  {
    var attrs := FillMissing(map[], dest.attrs, AttrKeys);
    var tagIds: seq<Id> := [];
    for i := 0 to |dest.tags|
      invariant tagIds == Strip(dest.tags[..i], fromTag, intoTag)
    {
      var tag := dest.tags[i];
      assert dest.tags[..i + 1] == dest.tags[..i] + [tag];
      StripAppend(dest.tags[..i], [tag], fromTag, intoTag);
      assert [tag][..0] == [];
      if tag != fromTag && tag != intoTag {
        tagIds := tagIds + [tag];
      }
    }
    assert dest.tags[..|dest.tags|] == dest.tags;
    u := PerformerUpdate(dest.id, dest.name, dest.aliases, attrs, dest.favorite, dest.stashIds, tagIds);
  }

  /**
   * What folding `p` in needs: an alias string once the names differ (`x in None`
   * fails), and a destination `stash_ids` list to append to when `p` has stash ids.
   */
  predicate CanAbsorb(u: PerformerUpdate, p: Performer)
  {
    && (u.name != p.name ==> u.aliases.Some? || p.aliases.Some?)
    && (p.stashIds.Some? && |p.stashIds.value| > 0 ==> u.stashIds.Some?)
  }

  /** The body of the source loop for one source `p`. */
  function Absorb(u: PerformerUpdate, p: Performer): (r: PerformerUpdate)
    requires CanAbsorb(u, p)
    ensures r.id == u.id && r.name == u.name
    ensures r.favorite == (u.favorite || p.favorite)
    ensures r.stashIds.Some? == u.stashIds.Some?
    ensures r.aliases.Some? <==> u.aliases.Some? || p.aliases.Some?
    ensures u.aliases.Some? ==> r.aliases.Some? && u.aliases.value <= r.aliases.value
    ensures p.name != u.name ==> r.aliases.Some? && IsSubstring(p.name, r.aliases.value)
    ensures var base := if u.aliases.Some? then u.aliases else p.aliases;
            r.aliases == if u.name != p.name && !IsSubstring(p.name, base.value) then Some(base.value + ", " + p.name)
                         else base
  {
    var aliases := if u.aliases.Some? then u.aliases else p.aliases;
    var aliases' :=
      if u.name != p.name && !IsSubstring(p.name, aliases.value) then Some(aliases.value + ", " + p.name)
      else aliases;
    assert p.name != u.name ==> IsSubstring(p.name, aliases'.value) by {
      if p.name != u.name && aliases' != aliases {
        assert aliases'.value == (aliases.value + ", ") + p.name;
        SubstringSuffix(p.name, aliases.value + ", ");
      }
    }
    PerformerUpdate(
      u.id, u.name, aliases',
      Filled(u.attrs, p.attrs, AttrKeys),
      u.favorite || p.favorite,
      if p.stashIds.Some? && |p.stashIds.value| > 0 then Some(u.stashIds.value + p.stashIds.value) else u.stashIds,
      u.tagIds + p.tags)
  }

  /** The body of the `for performer in source` loop, with its loops over fields, stash ids and tags. */
  method AbsorbSource(u: PerformerUpdate, p: Performer) returns (r: PerformerUpdate)
    requires CanAbsorb(u, p)
    ensures r == Absorb(u, p)
  {
    var aliases := u.aliases;
    if aliases.None? {
      aliases := p.aliases;
    }
    var attrs := FillMissing(u.attrs, p.attrs, AttrKeys);
    var favorite := u.favorite;
    if p.favorite {
      favorite := true;
    }
    if u.name != p.name && !IsSubstring(p.name, aliases.value) {
      aliases := Some(aliases.value + ", " + p.name);
    }
    var stashIds := u.stashIds;
    if p.stashIds.Some? && |p.stashIds.value| > 0 {
      var base, added := u.stashIds.value, p.stashIds.value;
      assert base + added[..0] == base;
      for i := 0 to |added|
        invariant stashIds == Some(base + added[..i])
      {
        assert base + added[..i + 1] == (base + added[..i]) + [added[i]];
        stashIds := Some(stashIds.value + [added[i]]);
      }
      assert added[..|added|] == added;
    }
    var tagIds := u.tagIds;
    for i := 0 to |p.tags|
      invariant tagIds == u.tagIds + p.tags[..i]
    {
      assert p.tags[..i + 1] == p.tags[..i] + [p.tags[i]];
      tagIds := tagIds + [p.tags[i]];
    }
    assert p.tags[..|p.tags|] == p.tags;
    r := PerformerUpdate(u.id, u.name, aliases, attrs, favorite, stashIds, tagIds);
  }

  /** Some source up to and including position `i` has an alias string. */
  predicate AliasesBy(ps: seq<Performer>, i: int)
  {
    exists j :: 0 <= j <= i && j < |ps| && ps[j].aliases.Some?
  }

  /**
   * The source loop never reaches an alias check without an alias string, and
   * never appends stash ids to a missing list.
   */
  predicate CanAbsorbAll(u: PerformerUpdate, ps: seq<Performer>)
  {
    && (forall i :: 0 <= i < |ps| && ps[i].name != u.name ==> u.aliases.Some? || AliasesBy(ps, i))
    && (u.stashIds.None? ==> forall i :: 0 <= i < |ps| && ps[i].stashIds.Some? ==> |ps[i].stashIds.value| == 0)
  }

  lemma CanAbsorbAllFront(u: PerformerUpdate, ps: seq<Performer>)
    requires CanAbsorbAll(u, ps) && ps != []
    ensures CanAbsorbAll(u, ps[..|ps| - 1])
  {
    var front := ps[..|ps| - 1];
    forall i | 0 <= i < |front| && front[i].name != u.name
      ensures u.aliases.Some? || AliasesBy(front, i)
    {
      if !u.aliases.Some? {
        var j :| 0 <= j <= i && j < |ps| && ps[j].aliases.Some?;
        assert front[j] == ps[j];
      }
    }
  }

  /** The source loop: the sources folded in, in enumeration order. */
  function AbsorbAll(u: PerformerUpdate, ps: seq<Performer>): (r: PerformerUpdate)
    requires CanAbsorbAll(u, ps)
    ensures r.id == u.id && r.name == u.name
    ensures r.stashIds.Some? == u.stashIds.Some?
    ensures r.aliases.Some? <==> u.aliases.Some? || AliasesBy(ps, |ps| - 1)
  {
    if ps == [] then u
    else
      var front, p := ps[..|ps| - 1], ps[|ps| - 1];
      CanAbsorbAllFront(u, ps);
      var m := AbsorbAll(u, front);
      assert AliasesBy(front, |front| - 1) ==> AliasesBy(ps, |ps| - 1) by {
        if AliasesBy(front, |front| - 1) {
          var j :| 0 <= j <= |front| - 1 && j < |front| && front[j].aliases.Some?;
          assert ps[j] == front[j];
        }
      }
      assert AliasesBy(ps, |ps| - 1) ==> AliasesBy(front, |front| - 1) || p.aliases.Some? by {
        if AliasesBy(ps, |ps| - 1) && !p.aliases.Some? {
          var j :| 0 <= j <= |ps| - 1 && j < |ps| && ps[j].aliases.Some?;
          assert front[j] == ps[j];
        }
      }
      Absorb(m, p)
  }

  /** One more source folded in. */
  lemma AbsorbAllSnoc(u: PerformerUpdate, ps: seq<Performer>, p: Performer)
    requires CanAbsorbAll(u, ps + [p])
    ensures CanAbsorbAll(u, ps) && CanAbsorb(AbsorbAll(u, ps), p)
    ensures AbsorbAll(u, ps + [p]) == Absorb(AbsorbAll(u, ps), p)
  {
    var all := ps + [p];
    assert all[..|ps|] == ps;
    CanAbsorbAllFront(u, all);
    if p.name != u.name && !u.aliases.Some? && !p.aliases.Some? {
      assert AliasesBy(all, |ps|);
      var j :| 0 <= j <= |ps| && j < |all| && all[j].aliases.Some?;
      assert all[j] == ps[j];
    }
    assert all[|all| - 1] == p;
  }

  /** The first source, in enumeration order, with a non-null value for `k`. */
  function FirstSourceValue(ps: seq<Performer>, k: Key): Option<Value>
  {
    if ps == [] then None
    else if k in ps[0].attrs then Some(ps[0].attrs[k])
    else FirstSourceValue(ps[1..], k)
  }

  lemma {:induction false} FirstSourceValueSnoc(ps: seq<Performer>, p: Performer, k: Key)
    ensures FirstSourceValue(ps + [p], k) ==
            if FirstSourceValue(ps, k).Some? then FirstSourceValue(ps, k) else Lookup(p.attrs, k)
  {
    if ps != [] {
      assert (ps + [p])[1..] == ps[1..] + [p];
      FirstSourceValueSnoc(ps[1..], p, k);
    } else {
      assert [p][1..] == [];
    }
  }

  /** Per-field fallback: a set field is kept, an unset one takes the first source's value. */
  lemma {:induction false} AbsorbAllAttrs(u: PerformerUpdate, ps: seq<Performer>)
    requires CanAbsorbAll(u, ps)
    ensures forall k :: Lookup(AbsorbAll(u, ps).attrs, k) ==
              if k in u.attrs then Some(u.attrs[k]) else if k in AttrKeys then FirstSourceValue(ps, k) else None
  {
    if ps != [] {
      var front, p := ps[..|ps| - 1], ps[|ps| - 1];
      CanAbsorbAllFront(u, ps);
      AbsorbAllAttrs(u, front);
      assert ps == front + [p];
      forall k
        ensures FirstSourceValue(ps, k) == if FirstSourceValue(front, k).Some? then FirstSourceValue(front, k) else Lookup(p.attrs, k)
      {
        FirstSourceValueSnoc(front, p, k);
      }
    }
  }

  /** `favorite` is OR-ed over the sources. */
  lemma {:induction false} AbsorbAllFavorite(u: PerformerUpdate, ps: seq<Performer>)
    requires CanAbsorbAll(u, ps)
    ensures AbsorbAll(u, ps).favorite <==> u.favorite || exists p :: p in ps && p.favorite
  {
    if ps != [] {
      var front, p := ps[..|ps| - 1], ps[|ps| - 1];
      CanAbsorbAllFront(u, ps);
      AbsorbAllFavorite(u, front);
      assert ps == front + [p];
    }
  }

  /** The stash ids of the sources, source by source, repeats included. */
  function SourceStashIds(ps: seq<Performer>): seq<StashId>
  {
    if ps == [] then []
    else
      var p := ps[|ps| - 1];
      SourceStashIds(ps[..|ps| - 1]) + (if p.stashIds.Some? then p.stashIds.value else [])
  }

  /** `stash_ids` is the starting list followed by each source's list, not deduplicated. */
  lemma {:induction false} AbsorbAllStashIds(u: PerformerUpdate, ps: seq<Performer>)
    requires CanAbsorbAll(u, ps)
    ensures u.stashIds.Some? ==> AbsorbAll(u, ps).stashIds == Some(u.stashIds.value + SourceStashIds(ps))
    ensures u.stashIds.None? ==> AbsorbAll(u, ps).stashIds == None && SourceStashIds(ps) == []
  {
    if ps != [] {
      var front, p := ps[..|ps| - 1], ps[|ps| - 1];
      CanAbsorbAllFront(u, ps);
      AbsorbAllStashIds(u, front);
      var m := AbsorbAll(u, front);
      assert AbsorbAll(u, ps) == Absorb(m, p);
      var extra := if p.stashIds.Some? then p.stashIds.value else [];
      assert SourceStashIds(ps) == SourceStashIds(front) + extra;
      if u.stashIds.Some? {
        AppendAssoc(u.stashIds.value, SourceStashIds(front), extra);
        if p.stashIds.Some? && |p.stashIds.value| > 0 {
          assert Absorb(m, p).stashIds == Some(m.stashIds.value + p.stashIds.value);
          assert m.stashIds.value == u.stashIds.value + SourceStashIds(front);
        } else {
          assert extra == [];
          assert SourceStashIds(ps) == SourceStashIds(front);
          assert Absorb(m, p).stashIds == m.stashIds;
        }
      } else {
        assert extra == [];
      }
    } else if u.stashIds.Some? {
      assert u.stashIds.value + [] == u.stashIds.value;
    }
  }

  /** The tags of the sources, source by source, repeats included. */
  function SourceTags(ps: seq<Performer>): seq<Id>
  {
    if ps == [] then [] else SourceTags(ps[..|ps| - 1]) + ps[|ps| - 1].tags
  }

  /** `tag_ids` is the starting list followed by every source tag, none excluded. */
  lemma {:induction false} AbsorbAllTags(u: PerformerUpdate, ps: seq<Performer>)
    requires CanAbsorbAll(u, ps)
    ensures AbsorbAll(u, ps).tagIds == u.tagIds + SourceTags(ps)
  {
    if ps != [] {
      var front, p := ps[..|ps| - 1], ps[|ps| - 1];
      CanAbsorbAllFront(u, ps);
      AbsorbAllTags(u, front);
      AppendAssoc(u.tagIds, SourceTags(front), p.tags);
    }
  }

  /** Aliases only grow: the fold keeps the destination's aliases as a prefix. */
  lemma {:induction false} AbsorbAllAliases(u: PerformerUpdate, ps: seq<Performer>)
    requires CanAbsorbAll(u, ps)
    ensures u.aliases.Some? ==>
              AbsorbAll(u, ps).aliases.Some? && u.aliases.value <= AbsorbAll(u, ps).aliases.value
  {
    if ps != [] {
      var front, p := ps[..|ps| - 1], ps[|ps| - 1];
      CanAbsorbAllFront(u, ps);
      AbsorbAllAliases(u, front);
      if u.aliases.Some? {
        var a := AbsorbAll(u, front).aliases.value;
        var b := Absorb(AbsorbAll(u, front), p).aliases.value;
        assert b[..|u.aliases.value|] == a[..|u.aliases.value|];
      }
    }
  }

  /** Every source name other than the kept name ends up in the aliases. */
  lemma {:induction false} AbsorbAllNames(u: PerformerUpdate, ps: seq<Performer>)
    requires CanAbsorbAll(u, ps)
    ensures forall p :: p in ps && p.name != u.name ==>
              AbsorbAll(u, ps).aliases.Some? && IsSubstring(p.name, AbsorbAll(u, ps).aliases.value)
  {
    if ps != [] {
      var front, p := ps[..|ps| - 1], ps[|ps| - 1];
      CanAbsorbAllFront(u, ps);
      AbsorbAllNames(u, front);
      var m := AbsorbAll(u, front);
      var r := Absorb(m, p);
      assert ps == front + [p];
      forall q | q in front && q.name != u.name
        ensures r.aliases.Some? && IsSubstring(q.name, r.aliases.value)
      {
        var a := m.aliases.value;
        assert r.aliases.value == a + r.aliases.value[|a|..];
        SubstringExtend(q.name, a, r.aliases.value[|a|..]);
      }
    }
  }

  /** One turn of the source loop: the fold grows by the next source. */
  lemma AbsorbStep(u0: PerformerUpdate, sources: seq<Performer>, i: nat)
    requires CanAbsorbAll(u0, sources) && i < |sources|
    ensures CanAbsorbAll(u0, sources[..i]) && CanAbsorbAll(u0, sources[..i + 1])
    ensures CanAbsorb(AbsorbAll(u0, sources[..i]), sources[i])
    ensures AbsorbAll(u0, sources[..i + 1]) == Absorb(AbsorbAll(u0, sources[..i]), sources[i])
  {
    assert sources[..i + 1] == sources[..i] + [sources[i]];
    CanAbsorbAllPrefix(u0, sources, i + 1);
    AbsorbAllSnoc(u0, sources[..i], sources[i]);
  }

  /** A prefix of a foldable list of sources is foldable. */
  lemma CanAbsorbAllPrefix(u: PerformerUpdate, ps: seq<Performer>, n: nat)
    requires CanAbsorbAll(u, ps) && n <= |ps|
    ensures CanAbsorbAll(u, ps[..n])
  {
    var front := ps[..n];
    forall i | 0 <= i < |front| && front[i].name != u.name
      ensures u.aliases.Some? || AliasesBy(front, i)
    {
      if !u.aliases.Some? {
        var j :| 0 <= j <= i && j < |ps| && ps[j].aliases.Some?;
        assert front[j] == ps[j];
      }
    }
  }

  /**
   * A source whose name differs from the kept name and was already seen earlier in
   * the fold leaves the aliases unchanged: a shared name is appended at most once.
   */
  lemma SharedNameAddedOnce(u: PerformerUpdate, ps: seq<Performer>, i: nat, j: nat)
    requires CanAbsorbAll(u, ps) && i < j < |ps|
    requires ps[i].name == ps[j].name && ps[i].name != u.name
    ensures CanAbsorbAll(u, ps[..j]) && CanAbsorbAll(u, ps[..j + 1])
    ensures AbsorbAll(u, ps[..j + 1]).aliases == AbsorbAll(u, ps[..j]).aliases
  {
    AbsorbStep(u, ps, j);
    AbsorbAllNames(u, ps[..j]);
    assert ps[..j][i] == ps[i];
  }

  /** The consolidated update for the destination and its sources. */
  function Consolidated(dest: Performer, sources: seq<Performer>, fromTag: Id, intoTag: Id): (r: PerformerUpdate)
    requires CanAbsorbAll(InitialUpdate(dest, fromTag, intoTag), sources)
    ensures r.id == dest.id && r.name == dest.name
    ensures r.stashIds.Some? == dest.stashIds.Some?
  {
    AbsorbAll(InitialUpdate(dest, fromTag, intoTag), sources)
  }

  /**
   * The consolidated record: the destination's identity and name; each field from
   * the destination or else the first source that has it; `favorite` OR-ed;
   * `stash_ids` and tags concatenated; every other source name among the aliases.
   */
  lemma ConsolidatedFields(dest: Performer, sources: seq<Performer>, fromTag: Id, intoTag: Id)
    requires CanAbsorbAll(InitialUpdate(dest, fromTag, intoTag), sources)
    ensures var r := Consolidated(dest, sources, fromTag, intoTag);
      && r.id == dest.id && r.name == dest.name
      && (forall k :: Lookup(r.attrs, k) ==
            if k !in AttrKeys then None
            else if k in dest.attrs then Some(dest.attrs[k])
            else FirstSourceValue(sources, k))
      && (r.favorite <==> dest.favorite || exists p :: p in sources && p.favorite)
      && r.stashIds == (if dest.stashIds.Some? then Some(dest.stashIds.value + SourceStashIds(sources)) else None)
      && r.tagIds == Strip(dest.tags, fromTag, intoTag) + SourceTags(sources)
      && (forall p :: p in sources && p.name != dest.name ==> r.aliases.Some? && IsSubstring(p.name, r.aliases.value))
  {
    var u := InitialUpdate(dest, fromTag, intoTag);
    ConsolidatedAttrs(dest, sources, fromTag, intoTag);
    AbsorbAllFavorite(u, sources);
    AbsorbAllStashIds(u, sources);
    AbsorbAllTags(u, sources);
    AbsorbAllNames(u, sources);
  }

  /** Each key comes from the destination or else from the first source that has it. */
  lemma ConsolidatedAttrs(dest: Performer, sources: seq<Performer>, fromTag: Id, intoTag: Id)
    requires CanAbsorbAll(InitialUpdate(dest, fromTag, intoTag), sources)
    ensures var r := Consolidated(dest, sources, fromTag, intoTag);
      forall k :: Lookup(r.attrs, k) ==
        if k !in AttrKeys then None
        else if k in dest.attrs then Some(dest.attrs[k])
        else FirstSourceValue(sources, k)
  {
    var u := InitialUpdate(dest, fromTag, intoTag);
    AbsorbAllAttrs(u, sources);
    var r := Consolidated(dest, sources, fromTag, intoTag);
    forall k
      ensures Lookup(r.attrs, k) ==
            if k !in AttrKeys then None
            else if k in dest.attrs then Some(dest.attrs[k])
            else FirstSourceValue(sources, k)
    {
      assert Lookup(u.attrs, k) == if k in AttrKeys then Lookup(dest.attrs, k) else None;
    }
  }
}
