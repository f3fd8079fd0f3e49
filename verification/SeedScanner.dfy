// The scanner that reads the seeds of a bundle: `.initialSeed("SEED",window.utimezone.tz)`.
module SeedScanner {
  import opened Basics
  import opened Scanner

  const SEED := ".initialSeed(\""
  const ZONE := ",window.utimezone."

  predicate IsLetter(c: char) {
    'a' <= c <= 'z' || 'A' <= c <= 'Z'
  }

  function Letters(s: string): (r: string)
    ensures r <= s && (forall i :: 0 <= i < |r| ==> IsLetter(r[i]))
    ensures |r| < |s| ==> !IsLetter(s[|r|])
  {
    if s == [] || !IsLetter(s[0]) then [] else [s[0]] + Letters(s[1..])
  }

  function UpperChar(c: char): char {
    if 'a' <= c <= 'z' then c - 'a' + 'A' else c
  }

  function Capitalized(name: string): string {
    if name == [] then [] else [UpperChar(LowerChar(name[0]))] + Lower(name[1..])
  }

  datatype Seed = Seed(zone: string, value: string)

  // What one match of the pattern contributes.
  function SeedOf(value: string, name: string): seq<Seed> {
    if name == [] || value == [] then [] else [Seed(Capitalized(name), value)]
  }

  // What the next turn of the scan finds: the seeds it contributes and the text it goes
  // on with. A seed without a zone after it contributes nothing.
  datatype Turn = Turn(seeds: seq<Seed>, rest: string)

  function NextTurn(s: string): (r: Option<Turn>)
    ensures r.Some? ==> |r.value.rest| < |s|
  {
    match Find(s, SEED)
    case None => None
    case Some(i) => ValueTurn(s[i + |SEED|..])
  }

  // The turn at the start of a value.
  function ValueTurn(s: string): (r: Option<Turn>)
    ensures r.Some? ==> |r.value.rest| <= |s|
  {
    match Find(s, "\"")
    case None => None
    case Some(q) => Some(ZoneTurn(s[..q], s[q..]))
  }

  // The turn at the quote after a value.
  function ZoneTurn(value: string, s: string): (r: Turn)
    ensures |r.rest| <= |s|
  {
    match Find(s, ZONE)
    case None => Turn([], s)
    case Some(z) => Turn(SeedOf(value, Letters(s[z + |ZONE|..])), s[z + |ZONE|..])
  }

  // The seeds of a text, scanned from the left.
  function Seeds(s: string): seq<Seed>
    decreases |s|
  {
    match NextTurn(s)
    case None => []
    case Some(t) => t.seeds + Seeds(t.rest)
  }

  function Inserted(m: map<string, string>, seeds: seq<Seed>): map<string, string> {
    if seeds == [] then m
    else Inserted(m, seeds[..|seeds| - 1])[seeds[|seeds| - 1].zone := seeds[|seeds| - 1].value]
  }

  // The map after a scan: the last seed found for a zone, the one at `last`, else what
  // was there.
  lemma {:induction false} LastSeedWins(m: map<string, string>, seeds: seq<Seed>, zone: string, last: int)
    requires -1 <= last < |seeds| && (last >= 0 ==> seeds[last].zone == zone)
    requires forall j :: last < j < |seeds| ==> seeds[j].zone != zone
    ensures var r := Inserted(m, seeds);
      if last >= 0 then zone in r && r[zone] == seeds[last].value
      else (zone in r <==> zone in m) && (zone in m ==> r[zone] == m[zone])
  {
    if last < |seeds| - 1 {
      LastSeedWins(m, seeds[..|seeds| - 1], zone, last);
    }
  }

  lemma {:induction false} InsertedAppend(m: map<string, string>, a: seq<Seed>, b: seq<Seed>)
    ensures Inserted(m, a + b) == Inserted(Inserted(m, a), b)
    decreases |b|
  {
    if b == [] {
      assert a + b == a;
    } else {
      assert (a + b)[..|a + b| - 1] == a + b[..|b| - 1];
      InsertedAppend(m, a, b[..|b| - 1]);
    }
  }

  // The turn at `pos`, in the bundle's own positions.
  lemma {:induction false} TurnAt(s: string, pos: nat)
    requires pos <= |s|
    ensures match Find(s[pos..], SEED)
      case None => NextTurn(s[pos..]).None?
      case Some(i) => pos + i + |SEED| <= |s| && NextTurn(s[pos..]) == ValueTurn(s[pos + i + |SEED|..])
  {
    hide Find, ValueTurn;
    FindWithin(s[pos..], SEED);
    var i := Find(s[pos..], SEED);
    if i.Some? {
      assert s[pos..][i.value + |SEED|..] == s[pos + i.value + |SEED|..];
    }
  }

  lemma {:induction false} ValueAt(s: string, start: nat)
    requires start <= |s|
    ensures match Find(s[start..], "\"")
      case None => ValueTurn(s[start..]).None?
      case Some(q) =>
        start + q < |s| && ValueTurn(s[start..]) == Some(ZoneTurn(s[start..start + q], s[start + q..]))
  {
    hide Find, ZoneTurn;
    FindWithin(s[start..], "\"");
    var q := Find(s[start..], "\"");
    if q.Some? {
      assert s[start..][..q.value] == s[start..start + q.value];
      assert s[start..][q.value..] == s[start + q.value..];
    }
  }

  lemma {:induction false} ZoneAt(value: string, s: string, quote: nat)
    requires quote <= |s|
    ensures match Find(s[quote..], ZONE)
      case None => ZoneTurn(value, s[quote..]) == Turn([], s[quote..])
      case Some(z) =>
        && quote + z + |ZONE| <= |s|
        && var rest := s[quote + z + |ZONE|..]; ZoneTurn(value, s[quote..]) == Turn(SeedOf(value, Letters(rest)), rest)
  {
    hide Find, SeedOf, Letters;
    FindWithin(s[quote..], ZONE);
    var z := Find(s[quote..], ZONE);
    if z.Some? {
      assert s[quote..][z.value + |ZONE|..] == s[quote + z.value + |ZONE|..];
    }
  }

  // The scanning loop: the position strictly increases, and the map is given the seeds
  // of the text in the order they are found.
  method ScanSeeds(bundle: string, seeds: map<string, string>) returns (found: map<string, string>)
    ensures found == Inserted(seeds, Seeds(bundle))
  {
    hide NextTurn, ValueTurn, ZoneTurn, Inserted, Find, StartsAt, Letters, SeedOf;
    found := seeds;
    var pos := 0;
    assert bundle[0..] == bundle;
    var at := Find(bundle[pos..], SEED);
    while at.Some?
      invariant pos <= |bundle| && at == Find(bundle[pos..], SEED)
      invariant Inserted(seeds, Seeds(bundle)) == Inserted(found, Seeds(bundle[pos..]))
      decreases |bundle| - pos
    {
      TurnAt(bundle, pos);
      var start := pos + at.value + |SEED|;
      ValueAt(bundle, start);
      var quote := Find(bundle[start..], "\"");
      if quote.None? {
        break;
      }
      var value := bundle[start..start + quote.value];
      ZoneAt(value, bundle, start + quote.value);
      var zone := Find(bundle[start + quote.value..], ZONE);
      if zone.None? {
        pos := start + quote.value;
        assert [] + Seeds(bundle[pos..]) == Seeds(bundle[pos..]);
      } else {
        var zoneStart := start + quote.value + zone.value + |ZONE|;
        var name := Letters(bundle[zoneStart..]);
        InsertSeed(found, value, name, Seeds(bundle[zoneStart..]));
        if name != [] && value != [] {
          found := found[Capitalized(name) := value];
        }
        pos := zoneStart;
      }
      at := Find(bundle[pos..], SEED);
    }
    TurnAt(bundle, pos);
    InsertNone(found);
  }

  lemma InsertSeed(m: map<string, string>, value: string, name: string, more: seq<Seed>)
    ensures Inserted(m, SeedOf(value, name) + more)
         == Inserted(if name != [] && value != [] then m[Capitalized(name) := value] else m, more)
  {
    InsertedAppend(m, SeedOf(value, name), more);
    if name != [] && value != [] {
      assert SeedOf(value, name)[..0] == [];
    }
  }

  lemma InsertNone(m: map<string, string>)
    ensures Inserted(m, []) == m
  {
  }

  // ---- Texts in which nothing begins ------------------------------------------------------

  lemma Dropped(a: string, b: string)
    ensures (a + b)[|a|..] == b && (a + b)[..|a|] == a
  {
  }

  // No occurrence of `needle` in `p + s` begins in `p`: it is looked for in `s`.
  lemma FoundAfter(p: string, s: string, needle: string)
    requires forall j: nat :: j < |p| ==> !StartsAt(p + s, needle, j)
    ensures Find(p + s, needle) == match Find(s, needle) case None => None case Some(i) => Some(|p| + i)
  {
    var whole := p + s;
    Dropped(p, s);
    forall j: nat ensures !StartsAt(whole, needle, j) || (j >= |p| && StartsAt(s, needle, j - |p|)) {
      if j >= |p| {
        InSuffix(whole, needle, |p|, j - |p|);
      }
    }
    var i := Find(s, needle);
    if i.Some? {
      InSuffix(whole, needle, |p|, i.value);
      FindIs(whole, needle, |p| + i.value);
    }
    hide StartsAt;
  }

  lemma NoSeedInside(p: string, s: string, j: nat)
    requires '.' !in p && j < |p|
    ensures !StartsAt(p + s, SEED, j)
  {
    assert (p + s)[j] == p[j];
    assert j + |SEED| <= |p + s| ==> (p + s)[j..j + |SEED|][0] == (p + s)[j];
  }

  // Text in which no seed can begin is skipped.
  lemma {:induction false} Skipped(p: string, s: string)
    requires '.' !in p
    ensures Seeds(p + s) == Seeds(s)
  {
    hide Find, StartsAt, ValueTurn;
    forall j: nat | j < |p| ensures !StartsAt(p + s, SEED, j) {
      NoSeedInside(p, s, j);
    }
    FoundAfter(p, s, SEED);
    FindWithin(s, SEED);
    var i := Find(s, SEED);
    if i.Some? {
      assert (p + s)[|p| + i.value + |SEED|..] == s[i.value + |SEED|..];
    }
    assert NextTurn(p + s) == NextTurn(s);
  }

  // A text that has no zone and ends in a quote cannot have one begin in it either.
  lemma NoZoneInside(p: string, s: string, j: nat)
    requires Find(p + "\"", ZONE).None? && j < |p + "\""|
    ensures !StartsAt(p + "\"" + s, ZONE, j)
  {
    var whole := p + "\"" + s;
    Dropped(p + "\"", s);
    if j + |ZONE| <= |p + "\""| {
      InPrefix(whole, ZONE, |p + "\""|, j);
    } else {
      assert whole[|p|] == '"';
      assert j + |ZONE| <= |whole| ==> whole[j..j + |ZONE|][|p| - j] == whole[|p|];
    }
  }

  // Without a zone nothing is a seed.
  lemma {:induction false} NoZoneNoSeeds(s: string)
    requires Find(s, ZONE).None?
    ensures Seeds(s) == []
    decreases |s|
  {
    hide Letters, Find, StartsAt, SeedOf;
    var i := Find(s, SEED);
    if i.Some? {
      FindWithin(s, SEED);
      var after := s[i.value + |SEED|..];
      var q := Find(after, "\"");
      if q.Some? {
        FindWithin(after, "\"");
        assert after[q.value..] == s[i.value + |SEED| + q.value..];
        NoneInSuffix(s, i.value + |SEED| + q.value);
        NoZoneNoSeeds(after[q.value..]);
      }
    }
  }

  lemma NoneInSuffix(s: string, from: nat)
    requires Find(s, ZONE).None? && from <= |s|
    ensures Find(s[from..], ZONE).None?
  {
    var z := Find(s[from..], ZONE);
    if z.Some? {
      InSuffix(s, ZONE, from, z.value);
    }
  }

  // ---- Bundles written out ------------------------------------------------------------------

  // A seed as a bundle holds it, after some other text: with its zone directly after it,
  // or without one.
  datatype Entry = Entry(filler: string, value: string, zone: Option<string>)

  predicate AllLetters(s: string) {
    forall i :: 0 <= i < |s| ==> 'a' <= s[i] <= 'z' || 'A' <= s[i] <= 'Z'
  }

  // The patterns the scan looks for.
  lemma Patterns()
    ensures SEED == ".initialSeed(\"" && ZONE == ",window.utimezone."
  {
  }

  // The first letter in upper case, the others in lower case.
  predicate IsCapitalized(name: string, zone: string) {
    && |zone| == |name|
    && forall i :: 0 <= i < |name| ==>
      SameLetter(name[i], zone[i]) && if i == 0 then 'A' <= zone[i] <= 'Z' else 'a' <= zone[i] <= 'z'
  }

  predicate SameLetter(c: char, d: char) {
    || c == d
    || ('a' <= c <= 'z' && 'A' <= d <= 'Z' && c - 'a' == d - 'A')
    || ('A' <= c <= 'Z' && 'a' <= d <= 'z' && c - 'A' == d - 'a')
  }

  lemma CapitalizedExactly(name: string)
    requires AllLetters(name)
    ensures IsCapitalized(name, Capitalized(name))
  {
    forall i | 0 <= i < |name|
      ensures SameLetter(name[i], Capitalized(name)[i])
      ensures if i == 0 then 'A' <= Capitalized(name)[i] <= 'Z' else 'a' <= Capitalized(name)[i] <= 'z'
    {
      assert Capitalized(name)[i] == if i == 0 then UpperChar(LowerChar(name[0])) else LowerChar(name[i]);
    }
  }

  // What a value given a zone adds: nothing if either is empty.
  function Given(zone: string, value: string): seq<Seed> {
    if zone == [] || value == [] then [] else [Seed(Capitalized(zone), value)]
  }

  predicate Plain(e: Entry) {
    && Find(e.filler + SEED, SEED) == Some(|e.filler|)
    && '"' !in e.value
    && (e.zone.Some? ==> AllLetters(e.zone.value))
  }

  // No zone stands before or in the seed.
  predicate ZoneFree(e: Entry) {
    Find(e.filler + (SEED + e.value) + "\"", ZONE).None?
  }

  // The bundle from entry `i` on.
  function Rendered(entries: seq<Entry>, i: nat, tail: string): string
    requires i <= |entries|
    decreases |entries| - i
  {
    if i == |entries| then tail
    else
      WithSeed(entries[i], Zoned(entries[i].zone, Rendered(entries, i + 1, tail)))
  }

  // An entry up to the quote after its value, and what follows.
  function WithSeed(e: Entry, rest: string): string {
    e.filler + (SEED + (e.value + ("\"" + rest)))
  }

  function Zoned(zone: Option<string>, more: string): string {
    match zone case None => more case Some(name) => ZONE + Closing(name, more)
  }

  // A zone's name, the bracket that ends the call, and what follows.
  function Closing(name: string, more: string): string {
    name + (")" + more)
  }

  // The first entry from `i` on that has a zone, or the number of entries.
  function NextZone(entries: seq<Entry>, i: nat): (j: nat)
    requires i <= |entries|
    ensures i <= j <= |entries| && (j < |entries| ==> entries[j].zone.Some?)
    decreases |entries| - i
  {
    if i == |entries| || entries[i].zone.Some? then i else NextZone(entries, i + 1)
  }

  // The pairs of an entry whose seed is found and the entry whose zone it is given.
  function Picks(entries: seq<Entry>, i: nat): (picks: seq<(nat, nat)>)
    requires i <= |entries|
    ensures forall p :: p in picks ==> p.0 <= p.1 < |entries| && entries[p.1].zone.Some?
    decreases |entries| - i
  {
    var j := NextZone(entries, i);
    if j == |entries| then [] else [(i, j)] + Picks(entries, j + 1)
  }

  // A seed is found exactly when it is the first of the bundle or follows one with a
  // zone, and some zone is still to come; it is given the next zone to come.
  lemma {:induction false} PicksExactly(entries: seq<Entry>, i: nat, a: nat, b: nat)
    requires i <= |entries|
    ensures (a, b) in Picks(entries, i) <==>
      && i <= a < |entries| && (a == i || entries[a - 1].zone.Some?)
      && b == NextZone(entries, a) && b < |entries|
    decreases |entries| - i
  {
    var j := NextZone(entries, i);
    if j < |entries| {
      PicksExactly(entries, j + 1, a, b);
      if i < a <= j {
        BareBefore(entries, i, a - 1);
      }
    } else if i < a < |entries| {
      BareBefore(entries, i, a - 1);
    }
  }

  lemma {:induction false} BareBefore(entries: seq<Entry>, i: nat, k: nat)
    requires i <= |entries| && i <= k < NextZone(entries, i)
    ensures entries[k].zone.None?
    decreases k - i
  {
    if i < k {
      BareBefore(entries, i + 1, k);
    }
  }

  // So a seed is found with its own zone exactly when it has one and the seed before it,
  // if there is one, has one too.
  lemma OwnZoneExactly(entries: seq<Entry>, a: nat)
    requires a < |entries|
    ensures (a, a) in Picks(entries, 0) <==>
      entries[a].zone.Some? && (a == 0 || entries[a - 1].zone.Some?)
  {
    PicksExactly(entries, 0, a, a);
  }

  function Named(entries: seq<Entry>, picks: seq<(nat, nat)>): seq<Seed>
    requires forall p :: p in picks ==> p.0 <= p.1 < |entries| && entries[p.1].zone.Some?
  {
    if picks == [] then []
    else Given(entries[picks[0].1].zone.value, entries[picks[0].0].value) + Named(entries, picks[1..])
  }

  // Between a seed without a zone and the zone it is given there is no other zone.
  predicate Spaced(entries: seq<Entry>, tail: string) {
    && (forall i :: 0 < i < |entries| && entries[i - 1].zone.None? ==> ZoneFree(entries[i]))
    && (entries != [] && entries[|entries| - 1].zone.None? ==> Find(tail, ZONE).None?)
  }

  lemma {:induction false} LettersOf(name: string, more: string)
    requires AllLetters(name)
    ensures Letters(name + (")" + more)) == name
  {
    var s := name + (")" + more);
    if name != [] {
      assert s[1..] == name[1..] + (")" + more);
      LettersOf(name[1..], more);
    }
  }

  lemma SeedAt(filler: string, more: string)
    requires Find(filler + SEED, SEED) == Some(|filler|)
    ensures Find(filler + (SEED + more), SEED) == Some(|filler|)
  {
    var s := filler + (SEED + more);
    var n := |filler| + |SEED|;
    assert s[..n] == filler + SEED;
    forall j: nat | j < |filler| ensures !StartsAt(s, SEED, j) {
      InPrefix(s, SEED, n, j);
    }
    InPrefix(s, SEED, n, |filler|);
    FindIs(s, SEED, |filler|);
  }

  lemma ZoneHere(more: string)
    ensures Find(ZONE + more, ZONE) == Some(0)
  {
    assert (ZONE + more)[0..|ZONE|] == ZONE;
    FindIs(ZONE + more, ZONE, 0);
  }

  lemma AfterQuote(s: string)
    ensures Find("\"" + s, ZONE) == match Find(s, ZONE) case None => None case Some(i) => Some(1 + i)
  {
    var whole := "\"" + s;
    assert !StartsAt(whole, ZONE, 0) by {
      assert |ZONE| <= |whole| ==> whole[0..|ZONE|][0] == whole[0];
    }
    FoundAfter("\"", s, ZONE);
  }

  // The first zone of `text` is followed by `named`.
  predicate ZoneThen(text: string, named: string) {
    match Find(text, ZONE)
    case None => false
    case Some(z) => z + |ZONE| <= |text| && text[z + |ZONE|..] == named
  }

  lemma ZoneFirst(name: string, more: string)
    ensures ZoneThen(Zoned(Some(name), more), Closing(name, more))
  {
    hide Find, Closing;
    ZoneHere(Closing(name, more));
    Dropped(ZONE, Closing(name, more));
  }

  lemma ZoneBehind(e: Entry, rest: string, named: string)
    requires ZoneFree(e)
    ensures ZoneThen(rest, named) ==> ZoneThen(WithSeed(e, rest), named)
    ensures Find(rest, ZONE).None? ==> Find(WithSeed(e, rest), ZONE).None?
  {
    hide Find, ZoneFree, WithSeed;
    ZoneAfter(e, rest);
    var text := WithSeed(e, rest);
    var front := |e.filler| + |SEED| + |e.value| + 1;
    var z := Find(rest, ZONE);
    if z.Some? && z.value + |ZONE| <= |rest| {
      assert text[front..][z.value + |ZONE|..] == text[front + z.value + |ZONE|..];
    }
  }

  lemma SpacedHere(entries: seq<Entry>, i: nat, tail: string)
    requires 0 < i <= |entries| && Spaced(entries, tail) && entries[i - 1].zone.None?
    ensures if i < |entries| then ZoneFree(entries[i]) else Find(tail, ZONE).None?
  {
    hide Find, ZoneFree;
  }

  // After a seed without a zone, the first zone in the text is that of the next entry
  // which has one.
  lemma {:induction false} ZoneSearch(entries: seq<Entry>, i: nat, tail: string)
    requires i <= |entries| && Spaced(entries, tail)
    requires i > 0 && entries[i - 1].zone.None?
    ensures var text := Rendered(entries, i, tail); var j := NextZone(entries, i);
      if j == |entries| then Find(text, ZONE).None?
      else ZoneThen(text, Closing(entries[j].zone.value, Rendered(entries, j + 1, tail)))
    decreases |entries| - i
  {
    hide Find, ZoneThen, WithSeed, ZoneFree, Spaced, Rendered, Zoned, NextZone, Closing;
    SpacedHere(entries, i, tail);
    RenderedOnce(entries, i, tail);
    if i < |entries| {
      var e := entries[i];
      var more := Rendered(entries, i + 1, tail);
      if e.zone.Some? {
        ZoneFirst(e.zone.value, more);
        ZoneBehind(e, Zoned(e.zone, more), Closing(e.zone.value, more));
      } else {
        ZoneSearch(entries, i + 1, tail);
        var j := NextZone(entries, i + 1);
        var named := if j == |entries| then "" else Closing(entries[j].zone.value, Rendered(entries, j + 1, tail));
        ZoneBehind(e, more, named);
      }
    }
  }

  lemma {:induction false} RenderedOnce(entries: seq<Entry>, i: nat, tail: string)
    requires i <= |entries|
    ensures i == |entries| ==> Rendered(entries, i, tail) == tail && NextZone(entries, i) == i
    ensures i < |entries| ==>
      var e := entries[i]; var more := Rendered(entries, i + 1, tail);
      && Rendered(entries, i, tail) == WithSeed(e, Zoned(e.zone, more))
      && (e.zone.None? ==> Zoned(e.zone, more) == more)
      && NextZone(entries, i) == if e.zone.Some? then i else NextZone(entries, i + 1)
  {
    hide WithSeed, Closing;
  }

  lemma {:induction false} ZoneAfter(e: Entry, rest: string)
    requires ZoneFree(e)
    ensures var text := WithSeed(e, rest); var front := |e.filler| + |SEED| + |e.value| + 1;
      && |text| == front + |rest| && text[front..] == rest
      && Find(text, ZONE) == match Find(rest, ZONE) case None => None case Some(i) => Some(front + i)
  {
    hide Find, StartsAt;
    var p := e.filler + (SEED + e.value);
    assert e.filler + (SEED + (e.value + ("\"" + rest))) == p + "\"" + rest;
    forall j: nat | j < |p + "\""| ensures !StartsAt(p + "\"" + rest, ZONE, j) {
      NoZoneInside(p, rest, j);
    }
    FoundAfter(p + "\"", rest, ZONE);
    Dropped(p + "\"", rest);
  }

  // The turn at the start of an entry: its value is taken, and the first zone after it.
  lemma {:induction false} TurnIs(filler: string, value: string, rest: string)
    requires Find(filler + SEED, SEED) == Some(|filler|) && '"' !in value
    ensures var s := filler + (SEED + (value + ("\"" + rest)));
      match Find(rest, ZONE)
      case None => NextTurn(s) == Some(Turn([], "\"" + rest))
      case Some(z) =>
        && z + |ZONE| <= |rest|
        && NextTurn(s) == Some(Turn(SeedOf(value, Letters(rest[z + |ZONE|..])), rest[z + |ZONE|..]))
  {
    hide Find, StartsAt, ValueTurn;
    var after := value + ("\"" + rest);
    var s := filler + (SEED + after);
    SeedAt(filler, after);
    Dropped(filler, SEED + after);
    Dropped(SEED, after);
    assert s[|filler| + |SEED|..] == s[|filler|..][|SEED|..];
    ValueIs(value, rest);
  }

  lemma {:induction false} ValueIs(value: string, rest: string)
    requires '"' !in value
    ensures match Find(rest, ZONE)
      case None => ValueTurn(value + ("\"" + rest)) == Some(Turn([], "\"" + rest))
      case Some(z) =>
        && z + |ZONE| <= |rest|
        && var more := rest[z + |ZONE|..];
          ValueTurn(value + ("\"" + rest)) == Some(Turn(SeedOf(value, Letters(more)), more))
  {
    hide Find, StartsAt, Letters, SeedOf;
    var quoted := "\"" + rest;
    CharAt(value, '"', rest);
    Dropped(value, quoted);
    AfterQuote(rest);
    FindWithin(rest, ZONE);
    var z := Find(rest, ZONE);
    if z.Some? {
      assert quoted[1 + z.value + |ZONE|..] == rest[z.value + |ZONE|..];
    }
  }

  // The round trip: scanning a bundle that holds seeds, with anything between them in
  // which no seed begins, gives the seeds picked, in order, each with the zone picked.
  lemma {:induction false} RenderedSeeds(entries: seq<Entry>, i: nat, tail: string)
    requires i <= |entries| && Spaced(entries, tail) && Find(tail, SEED).None?
    requires forall k :: 0 <= k < |entries| ==> Plain(entries[k])
    ensures Seeds(Rendered(entries, i, tail)) == Named(entries, Picks(entries, i))
    decreases |entries| - i
  {
    hide NextTurn, Find, Plain, Spaced, Letters, Seeds, Named, Picks, Rendered, NextZone, Given, StartsAt, AllLetters;
    EntryTurn(entries, i, tail);
    NamedNext(entries, i);
    if i < |entries| && NextZone(entries, i) < |entries| {
      var j := NextZone(entries, i);
      var name := entries[j].zone.value;
      var more := Rendered(entries, j + 1, tail);
      PlainZone(entries[j]);
      assert name + (")" + more) == name + ")" + more;
      Skipped(name + ")", more);
      RenderedSeeds(entries, j + 1, tail);
    }
  }

  lemma {:induction false} NamedNext(entries: seq<Entry>, i: nat)
    requires i <= |entries|
    ensures var j := NextZone(entries, i);
      Named(entries, Picks(entries, i)) ==
        if j == |entries| then []
        else Given(entries[j].zone.value, entries[i].value) + Named(entries, Picks(entries, j + 1))
  {
    hide NextZone, Given;
    var j := NextZone(entries, i);
    if j < |entries| {
      assert Picks(entries, i)[1..] == Picks(entries, j + 1);
    }
  }

  // The seeds from entry `i` on: none when no zone is to come, else its value with that
  // zone and then those of what follows the zone.
  lemma {:induction false} EntryTurn(entries: seq<Entry>, i: nat, tail: string)
    requires i <= |entries| && Spaced(entries, tail) && Find(tail, SEED).None?
    requires forall k :: 0 <= k < |entries| ==> Plain(entries[k])
    ensures var text := Rendered(entries, i, tail); var j := NextZone(entries, i);
      Seeds(text) ==
        if j == |entries| then []
        else
          var zone := entries[j].zone.value;
          Given(zone, entries[i].value) + Seeds(Closing(zone, Rendered(entries, j + 1, tail)))
  {
    hide Find, StartsAt, Letters, NextTurn, Spaced, Capitalized, Seeds, Plain, WithSeed, Zoned, Rendered,
      NextZone, Closing;
    RenderedOnce(entries, i, tail);
    if i == |entries| {
      NoTurn(tail);
    } else {
      var e := entries[i];
      var j := NextZone(entries, i);
      var more := Rendered(entries, i + 1, tail);
      assert Plain(e) && (j < |entries| ==> Plain(entries[j]));
      if e.zone.Some? {
        ZonedTurn(e, more);
      } else {
        ZoneSearch(entries, i + 1, tail);
        BareTurn(e, more);
        if j < |entries| {
          PlainZone(entries[j]);
          PlainTurn(e, entries[j].zone.value, Rendered(entries, j + 1, tail));
        }
      }
    }
  }

  lemma {:induction false} PlainTurn(e: Entry, name: string, more: string)
    requires AllLetters(name)
    ensures SeedOf(e.value, Letters(Closing(name, more))) == Given(name, e.value)
  {
    LettersOf(name, more);
  }

  lemma {:induction false} ZonedTurn(e: Entry, more: string)
    requires Plain(e) && e.zone.Some?
    ensures Seeds(WithSeed(e, Zoned(e.zone, more)))
         == Given(e.zone.value, e.value) + Seeds(Closing(e.zone.value, more))
  {
    hide Find, StartsAt, Letters, NextTurn, Capitalized;
    var rest := Closing(e.zone.value, more);
    TurnIs(e.filler, e.value, ZONE + rest);
    ZoneHere(rest);
    Dropped(ZONE, rest);
    PlainTurn(e, e.zone.value, more);
  }

  lemma {:induction false} BareTurn(e: Entry, more: string)
    requires Plain(e)
    ensures match Find(more, ZONE)
      case None => Seeds(WithSeed(e, more)) == []
      case Some(z) =>
        && z + |ZONE| <= |more|
        && var rest := more[z + |ZONE|..];
          Seeds(WithSeed(e, more)) == SeedOf(e.value, Letters(rest)) + Seeds(rest)
  {
    hide Find, StartsAt, Letters, NextTurn, SeedOf;
    TurnIs(e.filler, e.value, more);
    if Find(more, ZONE).None? {
      AfterQuote(more);
      NoZoneNoSeeds("\"" + more);
    }
  }

  lemma NoTurn(s: string)
    requires Find(s, SEED).None?
    ensures Seeds(s) == []
  {
  }

  lemma PlainZone(e: Entry)
    requires Plain(e) && e.zone.Some?
    ensures '.' !in e.zone.value + ")"
    ensures AllLetters(e.zone.value)
  {
  }

  // Two seeds, .initialSeed("a").initialSeed("b",window.utimezone.paris): the value of the
  // first is given the zone of the second, whose own value is lost.
  lemma ZoneTakenOver()
    ensures Seeds(Rendered([FIRST, SECOND], 0, "")) == [Seed("Paris", "a")]
  {
    hide Find, StartsAt, NextTurn, Seeds, Named, Picks, Rendered;
    var entries := [FIRST, SECOND];
    ExamplePlain();
    assert forall k :: 0 <= k < |entries| ==> Plain(entries[k]);
    ExampleSpaced();
    ExamplePicks();
    FindWithin("", SEED);
    RenderedSeeds(entries, 0, "");
  }

  const FIRST := Entry("", "a", None)
  const SECOND := Entry(")", "b", Some("paris"))

  lemma ExamplePlain()
    ensures Plain(FIRST) && Plain(SECOND)
  {
    var second := ")" + SEED;
    assert "" + SEED == SEED && SEED[0..|SEED|] == SEED;
    FindIs(SEED, SEED, 0);
    assert second[0..|SEED|][0] == ')' && second[1..1 + |SEED|] == SEED;
    FindIs(second, SEED, 1);
  }

  lemma ExampleSpaced()
    ensures Spaced([FIRST, SECOND], "")
  {
    NoComma(SECOND.filler + (SEED + SECOND.value) + "\"");
  }

  lemma NoComma(s: string)
    requires ',' !in s
    ensures Find(s, ZONE).None?
  {
    forall j: nat ensures !StartsAt(s, ZONE, j) {
      assert j + |ZONE| <= |s| ==> s[j..j + |ZONE|][0] == s[j];
    }
  }

  lemma ExamplePicks()
    ensures Named([FIRST, SECOND], Picks([FIRST, SECOND], 0)) == [Seed("Paris", "a")]
  {
    var entries := [FIRST, SECOND];
    assert NextZone(entries, 0) == 1 && NextZone(entries, 2) == 2;
    NamedNext(entries, 0);
    NamedNext(entries, 2);
    assert Capitalized("paris") == "Paris";
  }
}
