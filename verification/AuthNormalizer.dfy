/** Security requirements as a bounded list of alternatives (client/auth-normalizer.ts). */
module AuthNormalizer {
  import opened Options

  datatype Location = InHeader | InQuery | InCookie

  /** An API key, or one of the schemes that own the Authorization header. */
  datatype AuthScheme = ApiKey(name: string, location: Location) | Authorization(scheme: string)

  datatype Destination = Cookie(name: string) | CookieHeader | Slot(key: string)

  function LowerChar(c: char): char {
    if 'A' <= c <= 'Z' then c - 'A' + 'a' else c
  }

  /** Header names compare without regard to case. */
  function Lower(s: string): string {
    seq(|s|, i requires 0 <= i < |s| => LowerChar(s[i]))
  }

  function DestinationOf(scheme: AuthScheme): Destination {
    match scheme
    case Authorization(_) => Slot("header:authorization")
    case ApiKey(name, InCookie) => Cookie(name)
    case ApiKey(name, InQuery) => Slot("query:" + name)
    case ApiKey(name, InHeader) => if Lower(name) == "cookie" then CookieHeader else Slot("header:" + Lower(name))
  }

  /** Two credentials that cannot be sent in one request. */
  predicate Clash(d: Destination, e: Destination) {
    if d.CookieHeader? then e.CookieHeader? || e.Cookie?
    else if e.CookieHeader? then d.Cookie?
    else d == e
  }

  /** Where in a request a credential is written. */
  datatype Place = HeaderField(name: string) | QueryParameter(name: string) | CookiePair(name: string)

  function PlaceOf(scheme: AuthScheme): Place {
    match scheme
    case Authorization(_) => HeaderField("Authorization")
    case ApiKey(name, InHeader) => HeaderField(name)
    case ApiKey(name, InQuery) => QueryParameter(name)
    case ApiKey(name, InCookie) => CookiePair(name)
  }

  /** The same letter, in either case. */
  predicate SameLetter(c: char, d: char) {
    || c == d
    || ('A' <= c <= 'Z' && d as int == c as int + 32)
    || ('A' <= d <= 'Z' && c as int == d as int + 32)
  }

  predicate SameName(a: string, b: string) {
    |a| == |b| && forall i | 0 <= i < |a| :: SameLetter(a[i], b[i])
  }

  /** Field names do not differ by case; parameter and cookie names do. */
  predicate SamePlace(p: Place, q: Place) {
    if p.HeaderField? && q.HeaderField? then SameName(p.name, q.name) else p == q
  }

  predicate IsCookieField(p: Place) {
    p.HeaderField? && SameName(p.name, "Cookie")
  }

  lemma LowerIsSameName(a: string, b: string)
    ensures Lower(a) == Lower(b) <==> SameName(a, b)
  {
    if Lower(a) == Lower(b) {
      forall i | 0 <= i < |a| ensures SameLetter(a[i], b[i]) {
        assert Lower(a)[i] == LowerChar(a[i]) && Lower(b)[i] == LowerChar(b[i]);
      }
    }
  }

  lemma LowerOfNames()
    ensures Lower("Authorization") == "authorization" && Lower("Cookie") == "cookie"
  {
    var field, cookie := "Authorization", "Cookie";
    assert forall i | 0 <= i < |field| :: LowerChar(field[i]) == "authorization"[i];
    assert forall i | 0 <= i < |cookie| :: LowerChar(cookie[i]) == "cookie"[i];
  }

  /** Two credentials clash exactly when they are written to the same place, or one of them
      is the whole Cookie header and the other a cookie in it. */
  lemma ClashIsSamePlace(a: AuthScheme, b: AuthScheme)
    ensures Clash(DestinationOf(a), DestinationOf(b)) <==>
              || SamePlace(PlaceOf(a), PlaceOf(b))
              || (IsCookieField(PlaceOf(a)) && PlaceOf(b).CookiePair?)
              || (IsCookieField(PlaceOf(b)) && PlaceOf(a).CookiePair?)
  {
    SlotText(a);
    SlotText(b);
    LowerIsSameName(PlaceOf(a).name, PlaceOf(b).name);
    LowerIsSameName(PlaceOf(a).name, "Cookie");
    LowerIsSameName(PlaceOf(b).name, "Cookie");
    LowerOfNames();
  }

  lemma SlotText(a: AuthScheme)
    ensures DestinationOf(a).Slot? ==>
              var key := DestinationOf(a).key;
              var place := PlaceOf(a);
              && !place.CookiePair?
              && (place.HeaderField? ==>
                    key == "header:" + Lower(place.name) && key[0] == 'h' && key[7..] == Lower(place.name))
              && (place.QueryParameter? ==> key == "query:" + place.name && key[0] == 'q' && key[6..] == place.name)
  {
    if a.Authorization? {
      LowerOfNames();
      assert "header:authorization" == "header:" + "authorization";
    }
  }

  predicate Conflicting(group: seq<AuthScheme>) {
    exists i, j | 0 <= i < j < |group| :: Clash(DestinationOf(group[i]), DestinationOf(group[j]))
  }

  predicate Uses(group: seq<AuthScheme>, d: Destination) {
    exists i | 0 <= i < |group| :: DestinationOf(group[i]) == d
  }

  /** What the one-pass test has seen. */
  ghost predicate Seen(group: seq<AuthScheme>, slots: set<string>, cookieNames: set<string>, ownsCookieHeader: bool) {
    && (forall key :: key in slots <==> Uses(group, Slot(key)))
    && (forall name :: name in cookieNames <==> Uses(group, Cookie(name)))
    && (ownsCookieHeader <==> Uses(group, CookieHeader))
  }

  lemma ConflictMore(group: seq<AuthScheme>, next: AuthScheme)
    ensures Conflicting(group + [next]) <==>
              Conflicting(group) || exists i | 0 <= i < |group| :: Clash(DestinationOf(group[i]), DestinationOf(next))
  {
    var more := group + [next];
    if Conflicting(group) {
      var i, j :| 0 <= i < j < |group| && Clash(DestinationOf(group[i]), DestinationOf(group[j]));
      assert more[i] == group[i] && more[j] == group[j];
    } else if exists i | 0 <= i < |group| :: Clash(DestinationOf(group[i]), DestinationOf(next)) {
      var i :| 0 <= i < |group| && Clash(DestinationOf(group[i]), DestinationOf(next));
      assert more[i] == group[i] && more[|group|] == next;
    }
  }

  /** The one pass clashes with the next credential exactly when some earlier one does. */
  lemma SeenClash(group: seq<AuthScheme>, slots: set<string>, cookieNames: set<string>, owns: bool, d: Destination)
    requires Seen(group, slots, cookieNames, owns)
    ensures (exists i | 0 <= i < |group| :: Clash(DestinationOf(group[i]), d)) <==>
              (match d
               case CookieHeader => owns || cookieNames != {}
               case Cookie(name) => owns || name in cookieNames
               case Slot(key) => key in slots)
  {
    if d.CookieHeader? && cookieNames != {} {
      var name :| name in cookieNames;
      assert Uses(group, Cookie(name));
    }
  }

  lemma SeenMore(group: seq<AuthScheme>, slots: set<string>, cookieNames: set<string>, owns: bool, next: AuthScheme)
    requires Seen(group, slots, cookieNames, owns)
    ensures var d := DestinationOf(next);
            Seen(group + [next], if d.Slot? then slots + {d.key} else slots,
                 if d.Cookie? then cookieNames + {d.name} else cookieNames, owns || d.CookieHeader?)
  {
    HasMore(group, next);
  }

  lemma HasMore(group: seq<AuthScheme>, next: AuthScheme)
    ensures forall d :: Uses(group + [next], d) <==> d == DestinationOf(next) || Uses(group, d)
  {
    var more := group + [next];
    assert more[|group|] == next;
    assert forall i | 0 <= i < |group| :: more[i] == group[i];
    forall d | Uses(group, d) ensures Uses(more, d) {
      var i :| 0 <= i < |group| && DestinationOf(group[i]) == d;
      assert DestinationOf(more[i]) == d;
    }
  }

  method HasConflictingDestinations(group: seq<AuthScheme>) returns (conflict: bool)
    ensures conflict <==> Conflicting(group)
  {
    var slots: set<string>, cookieNames: set<string>, ownsCookieHeader := {}, {}, false;
    for i := 0 to |group|
      invariant Seen(group[..i], slots, cookieNames, ownsCookieHeader) && !Conflicting(group[..i])
    {
      var d := DestinationOf(group[i]);
      assert group[..i + 1] == group[..i] + [group[i]];
      ConflictMore(group[..i], group[i]);
      SeenClash(group[..i], slots, cookieNames, ownsCookieHeader, d);
      SeenMore(group[..i], slots, cookieNames, ownsCookieHeader, group[i]);
      match d
      case CookieHeader =>
        if ownsCookieHeader || cookieNames != {} {
          return true;
        }
        ownsCookieHeader := true;
      case Cookie(name) =>
        if ownsCookieHeader || name in cookieNames {
          return true;
        }
        cookieNames := cookieNames + {name};
      case Slot(key) =>
        if key in slots {
          return true;
        }
        slots := slots + {key};
    }
    assert group[..|group|] == group;
    conflict := false;
  }

  /** Whether a group conflicts does not depend on the order of its credentials. */
  lemma ConflictIgnoresOrder(group: seq<AuthScheme>, other: seq<AuthScheme>, place: seq<nat>)
    requires |group| == |other| == |place|
    requires forall i | 0 <= i < |place| :: place[i] < |group| && other[place[i]] == group[i]
    requires forall i, j | 0 <= i < j < |place| :: place[i] != place[j]
    ensures Conflicting(group) ==> Conflicting(other)
  {
    if Conflicting(group) {
      var i, j :| 0 <= i < j < |group| && Clash(DestinationOf(group[i]), DestinationOf(group[j]));
      var p := if place[i] < place[j] then place[i] else place[j];
      var q := if place[i] < place[j] then place[j] else place[i];
      assert p < q && Clash(DestinationOf(other[p]), DestinationOf(other[q]));
    }
  }

  // ---- Expansion ------------------------------------------------------------------------------

  const MAX_GROUPS: nat := 256

  /** One named scheme of a requirement: not declared, malformed, or the alternatives it
      normalizes to (one for each OAuth flow; none when unsupported). */
  datatype Entry = Absent | Malformed | Classes(classes: seq<AuthScheme>)

  type Requirement = seq<Entry>

  datatype Result<T> = Ok(value: T) | TooMany | Invalid

  function Each(group: seq<AuthScheme>, classes: seq<AuthScheme>): (r: seq<seq<AuthScheme>>)
    ensures |r| == |classes|
  {
    if classes == [] then [] else Each(group, classes[..|classes| - 1]) + [group + [classes[|classes| - 1]]]
  }

  function Product(groups: seq<seq<AuthScheme>>, classes: seq<AuthScheme>): (r: seq<seq<AuthScheme>>)
    ensures |r| == |groups| * |classes|
  {
    if groups == [] then []
    else
      assert |groups| * |classes| == (|groups| - 1) * |classes| + |classes|;
      Product(groups[..|groups| - 1], classes) + Each(groups[|groups| - 1], classes)
  }

  /** `None` is a requirement that is not fully supported. */
  function Expand(groups: seq<seq<AuthScheme>>, entries: Requirement,
      budget: nat): Result<Option<seq<seq<AuthScheme>>>>
    decreases |entries|
  {
    if entries == [] then Ok(Some(groups))
    else if entries[0].Malformed? then Invalid
    else if entries[0].Absent? || entries[0].classes == [] then Ok(None)
    else if |groups| > budget / |entries[0].classes| then TooMany
    else Expand(Product(groups, entries[0].classes), entries[1..], budget)
  }

  function Sound(groups: seq<seq<AuthScheme>>): seq<seq<AuthScheme>> {
    if groups == [] then []
    else Sound(groups[..|groups| - 1]) + (if Conflicting(groups[|groups| - 1]) then [] else [groups[|groups| - 1]])
  }

  /** What one requirement adds behind `used` groups. */
  function Alternatives(requirement: Requirement, used: nat): Result<seq<seq<AuthScheme>>>
    requires used <= MAX_GROUPS
  {
    if requirement == [] then (if used >= MAX_GROUPS then TooMany else Ok([[]]))
    else
      match Expand([[]], requirement, MAX_GROUPS - used)
      case Ok(groups) => Ok(if groups.Some? then Sound(groups.value) else [])
      case TooMany => TooMany
      case Invalid => Invalid
  }

  lemma {:induction false} ExpandBound(groups: seq<seq<AuthScheme>>, entries: Requirement, budget: nat)
    requires |groups| <= budget
    ensures var r := Expand(groups, entries, budget); r.Ok? && r.value.Some? ==> |r.value.value| <= budget
    decreases |entries|
  {
    if entries != [] && entries[0].Classes? && entries[0].classes != [] && |groups| <= budget / |entries[0].classes| {
      FloorBound(|groups|, budget, |entries[0].classes|);
      ExpandBound(Product(groups, entries[0].classes), entries[1..], budget);
    }
  }

  /** Every list built on the way, the expansion of each prefix, stays within the budget. */
  lemma ExpandWithin(groups: seq<seq<AuthScheme>>, entries: Requirement, budget: nat)
    requires |groups| <= budget
    ensures forall j | 0 <= j <= |entries| ::
              var r := Expand(groups, entries[..j], budget); r.Ok? && r.value.Some? ==> |r.value.value| <= budget
  {
    forall j | 0 <= j <= |entries|
      ensures var r := Expand(groups, entries[..j], budget); r.Ok? && r.value.Some? ==> |r.value.value| <= budget
    {
      ExpandBound(groups, entries[..j], budget);
    }
  }

  /** The code's floored division is the exact product bound. */
  lemma FloorBound(n: nat, budget: nat, m: nat)
    requires m > 0
    ensures n > budget / m <==> n * m > budget
  {
    if n > budget / m {
      assert n * m >= (budget / m + 1) * m;
      assert (budget / m + 1) * m == budget / m * m + m;
    } else {
      assert n * m <= budget / m * m;
    }
  }

  lemma {:induction false} SoundFacts(groups: seq<seq<AuthScheme>>)
    ensures |Sound(groups)| <= |groups|
    ensures forall g :: g in Sound(groups) <==> g in groups && !Conflicting(g)
  {
    if groups != [] {
      SoundFacts(groups[..|groups| - 1]);
      assert groups == groups[..|groups| - 1] + [groups[|groups| - 1]];
    }
  }

  lemma AlternativesWithin(requirement: Requirement, used: nat)
    requires used <= MAX_GROUPS
    ensures var r := Alternatives(requirement, used); r.Ok? ==> used + |r.value| <= MAX_GROUPS
  {
    if requirement != [] {
      var r := Expand([[]], requirement, MAX_GROUPS - used);
      if used < MAX_GROUPS {
        ExpandBound([[]], requirement, MAX_GROUPS - used);
      }
      if r.Ok? && r.value.Some? {
        SoundFacts(r.value.value);
      }
    }
  }

  function Normalized(result: seq<seq<AuthScheme>>, requirements: seq<Requirement>): Result<seq<seq<AuthScheme>>>
    requires |result| <= MAX_GROUPS
    decreases |requirements|
  {
    if requirements == [] then Ok(result)
    else
      var more := Alternatives(requirements[0], |result|);
      AlternativesWithin(requirements[0], |result|);
      if more.Ok? then Normalized(result + more.value, requirements[1..]) else more
  }

  method ExpandRequirement(entries: Requirement, budget: nat) returns (r: Result<Option<seq<seq<AuthScheme>>>>)
    ensures r == Expand([[]], entries, budget)
  {
    var groups := [[]];
    for i := 0 to |entries|
      invariant Expand(groups, entries[i..], budget) == Expand([[]], entries, budget)
      invariant i > 0 ==> |groups| <= budget
    {
      var entry := entries[i];
      assert entries[i..][0] == entry && entries[i..][1..] == entries[i + 1..];
      if entry.Malformed? {
        return Invalid;
      }
      if entry.Absent? || entry.classes == [] {
        return Ok(None);
      }
      if |groups| > budget / |entry.classes| {
        return TooMany;
      }
      FloorBound(|groups|, budget, |entry.classes|);
      var next := [];
      for k := 0 to |groups|
        invariant next == Product(groups[..k], entry.classes)
      {
        assert groups[..k + 1][..k] == groups[..k];
        next := next + Each(groups[k], entry.classes);
      }
      assert groups[..|groups|] == groups;
      groups := next;
    }
    r := Ok(Some(groups));
  }

  method FilterSound(groups: seq<seq<AuthScheme>>) returns (sound: seq<seq<AuthScheme>>)
    ensures sound == Sound(groups)
  {
    sound := [];
    for i := 0 to |groups|
      invariant sound == Sound(groups[..i])
    {
      assert groups[..i + 1][..i] == groups[..i];
      var conflict := HasConflictingDestinations(groups[i]);
      if !conflict {
        sound := sound + [groups[i]];
      }
    }
    assert groups[..|groups|] == groups;
  }

  method NormalizeRequirements(requirements: seq<Requirement>) returns (r: Result<seq<seq<AuthScheme>>>)
    ensures r == Normalized([], requirements)
    ensures r.Ok? ==> |r.value| <= MAX_GROUPS
  {
    var result: seq<seq<AuthScheme>> := [];
    for i := 0 to |requirements|
      invariant |result| <= MAX_GROUPS
      invariant Normalized(result, requirements[i..]) == Normalized([], requirements)
    {
      var requirement := requirements[i];
      assert requirements[i..][0] == requirement && requirements[i..][1..] == requirements[i + 1..];
      AlternativesWithin(requirement, |result|);
      if requirement == [] {
        if |result| >= MAX_GROUPS {
          return TooMany;
        }
        result := result + [[]];
      } else {
        var expanded := ExpandRequirement(requirement, MAX_GROUPS - |result|);
        if expanded.TooMany? {
          return TooMany;
        }
        if expanded.Invalid? {
          return Invalid;
        }
        if expanded.value.Some? {
          var sound := FilterSound(expanded.value.value);
          result := result + sound;
        } else {
          assert result + [] == result;
        }
      }
    }
    r := Ok(result);
  }

  // ---- What is returned --------------------------------------------------------------------------

  predicate Supported(requirement: Requirement) {
    forall i | 0 <= i < |requirement| :: requirement[i].Classes? && requirement[i].classes != []
  }

  /** A choice of one alternative for every scheme the requirement names, in order. */
  predicate Picks(group: seq<AuthScheme>, requirement: Requirement) {
    && |group| == |requirement|
    && forall i | 0 <= i < |group| :: requirement[i].Classes? && group[i] in requirement[i].classes
  }

  lemma {:induction false} EachMembers(group: seq<AuthScheme>, classes: seq<AuthScheme>, g: seq<AuthScheme>)
    ensures g in Each(group, classes) <==> |g| == |group| + 1 && g[..|group|] == group && g[|group|] in classes
  {
    if classes != [] {
      EachMembers(group, classes[..|classes| - 1], g);
      var last := classes[|classes| - 1];
      assert classes == classes[..|classes| - 1] + [last];
      if |g| == |group| + 1 && g[..|group|] == group && g[|group|] == last {
        assert g == group + [last];
      }
    }
  }

  lemma {:induction false} ProductMembers(groups: seq<seq<AuthScheme>>, classes: seq<AuthScheme>, g: seq<AuthScheme>)
    ensures g in Product(groups, classes) <==> |g| > 0 && g[..|g| - 1] in groups && g[|g| - 1] in classes
  {
    if groups != [] {
      var last := groups[|groups| - 1];
      ProductMembers(groups[..|groups| - 1], classes, g);
      EachMembers(last, classes, g);
      assert groups == groups[..|groups| - 1] + [last];
    }
  }

  /** `g` continues one of the groups with a pick for each entry. */
  predicate Continues(groups: seq<seq<AuthScheme>>, entries: Requirement, g: seq<AuthScheme>) {
    |g| >= |entries| && g[..|g| - |entries|] in groups && Picks(g[|g| - |entries|..], entries)
  }

  lemma ContinuesStep(groups: seq<seq<AuthScheme>>, entries: Requirement, g: seq<AuthScheme>)
    requires entries != [] && entries[0].Classes?
    ensures Continues(groups, entries, g) <==> Continues(Product(groups, entries[0].classes), entries[1..], g)
  {
    var n := |entries|;
    if |g| >= n {
      var head := g[..|g| - n + 1];
      ProductMembers(groups, entries[0].classes, head);
      assert head[..|head| - 1] == g[..|g| - n];
      assert g[|g| - n..] == [head[|head| - 1]] + g[|g| - n + 1..];
    } else if |g| == n - 1 {
      ProductMembers(groups, entries[0].classes, g[..0]);
    }
  }

  /** A supported requirement expands to exactly the Cartesian product of its entries. */
  lemma {:induction false} ExpandMembers(groups: seq<seq<AuthScheme>>, entries: Requirement, budget: nat,
      g: seq<AuthScheme>)
    requires var r := Expand(groups, entries, budget); r.Ok? && r.value.Some?
    ensures Supported(entries)
    ensures g in Expand(groups, entries, budget).value.value <==> Continues(groups, entries, g)
    decreases |entries|
  {
    if entries == [] {
      assert g[..|g|] == g;
    } else {
      ExpandMembers(Product(groups, entries[0].classes), entries[1..], budget, g);
      ContinuesStep(groups, entries, g);
      forall i | 0 <= i < |entries| ensures entries[i].Classes? && entries[i].classes != [] {
        if i > 0 {
          assert entries[i] == entries[1..][i - 1];
        }
      }
    }
  }

  lemma {:induction false} ExpandUnsupported(groups: seq<seq<AuthScheme>>, entries: Requirement, budget: nat)
    requires var r := Expand(groups, entries, budget); r.Ok? && r.value.None?
    ensures !Supported(entries)
    decreases |entries|
  {
    if entries[0].Classes? && entries[0].classes != [] {
      ExpandUnsupported(Product(groups, entries[0].classes), entries[1..], budget);
      var i :| 0 <= i < |entries[1..]| && !(entries[1..][i].Classes? && entries[1..][i].classes != []);
      assert entries[i + 1] == entries[1..][i];
    }
  }

  /** The groups a requirement stands for. An empty requirement stands for the anonymous
      group, which is also its empty product. */
  predicate StandsFor(requirement: Requirement, g: seq<AuthScheme>) {
    Supported(requirement) && Picks(g, requirement) && !Conflicting(g)
  }

  lemma AlternativesExact(requirement: Requirement, used: nat, g: seq<AuthScheme>)
    requires used <= MAX_GROUPS && Alternatives(requirement, used).Ok?
    ensures g in Alternatives(requirement, used).value <==> StandsFor(requirement, g)
  {
    if requirement != [] {
      var r := Expand([[]], requirement, MAX_GROUPS - used);
      if r.value.None? {
        ExpandUnsupported([[]], requirement, MAX_GROUPS - used);
      } else {
        ExpandMembers([[]], requirement, MAX_GROUPS - used, g);
        SoundFacts(r.value.value);
        if |g| >= |requirement| {
          assert g[..|g| - |requirement|] in [[]] <==> |g| == |requirement|;
          assert |g| == |requirement| ==> g[|g| - |requirement|..] == g;
        }
      }
    }
  }

  /** The returned groups are exactly the conflict-free members of the products of the
      fully supported requirements, the anonymous group for an empty one included. */
  lemma {:induction false} NormalizedIsExact(result: seq<seq<AuthScheme>>, requirements: seq<Requirement>,
      g: seq<AuthScheme>)
    requires |result| <= MAX_GROUPS && Normalized(result, requirements).Ok?
    ensures |Normalized(result, requirements).value| <= MAX_GROUPS
    ensures g in Normalized(result, requirements).value <==>
              g in result || exists r :: r in requirements && StandsFor(r, g)
    decreases |requirements|
  {
    if requirements != [] {
      var more := Alternatives(requirements[0], |result|);
      AlternativesWithin(requirements[0], |result|);
      AlternativesExact(requirements[0], |result|, g);
      NormalizedIsExact(result + more.value, requirements[1..], g);
      assert requirements == [requirements[0]] + requirements[1..];
    }
  }

  /** The number of groups a requirement multiplies out to. */
  function Size(entries: Requirement): nat
    requires Supported(entries)
  {
    if entries == [] then 1
    else
      assert forall i | 0 <= i < |entries| - 1 :: entries[1..][i] == entries[i + 1];
      |entries[0].classes| * Size(entries[1..])
  }

  // ---- In which order ----------------------------------------------------------------------------

  function Behind(group: seq<AuthScheme>, tails: seq<seq<AuthScheme>>): seq<seq<AuthScheme>> {
    seq(|tails|, i requires 0 <= i < |tails| => group + tails[i])
  }

  /** Every group continued by every tail; the tails run fastest. */
  function Cross(groups: seq<seq<AuthScheme>>, tails: seq<seq<AuthScheme>>): seq<seq<AuthScheme>> {
    if groups == [] then [] else Cross(groups[..|groups| - 1], tails) + Behind(groups[|groups| - 1], tails)
  }

  function Singles(classes: seq<AuthScheme>): seq<seq<AuthScheme>> {
    if classes == [] then [] else Singles(classes[..|classes| - 1]) + [[classes[|classes| - 1]]]
  }

  /** All choices of one alternative for each scheme, in lexicographic order; none when some
      scheme has no alternative. */
  function Choices(entries: Requirement): seq<seq<AuthScheme>> {
    if entries == [] then [[]]
    else Cross(Singles(if entries[0].Classes? then entries[0].classes else []), Choices(entries[1..]))
  }

  lemma AssociateSeq<T>(a: seq<T>, b: seq<T>, c: seq<T>)
    ensures a + b + c == a + (b + c)
  {
  }

  lemma {:induction false} CrossConcat(a: seq<seq<AuthScheme>>, b: seq<seq<AuthScheme>>, tails: seq<seq<AuthScheme>>)
    ensures Cross(a + b, tails) == Cross(a, tails) + Cross(b, tails)
  {
    if b == [] {
      assert a + b == a;
    } else {
      var n := |b| - 1;
      CrossConcat(a, b[..n], tails);
      assert (a + b)[..|a + b| - 1] == a + b[..n] && (a + b)[|a + b| - 1] == b[n];
      AssociateSeq(Cross(a, tails), Cross(b[..n], tails), Behind(b[n], tails));
    }
  }

  lemma CrossOne(group: seq<AuthScheme>, tails: seq<seq<AuthScheme>>)
    ensures Cross([group], tails) == Behind(group, tails)
  {
    assert [group][..0] == [];
  }

  lemma BehindBoth(group: seq<AuthScheme>, c: AuthScheme, tails: seq<seq<AuthScheme>>)
    ensures Behind(group + [c], tails) == Behind(group, Behind([c], tails))
  {
    forall i | 0 <= i < |tails| ensures group + [c] + tails[i] == group + ([c] + tails[i]) {
    }
  }

  lemma BehindConcat(group: seq<AuthScheme>, a: seq<seq<AuthScheme>>, b: seq<seq<AuthScheme>>)
    ensures Behind(group, a + b) == Behind(group, a) + Behind(group, b)
  {
  }

  lemma BehindNothing(tails: seq<seq<AuthScheme>>)
    ensures Behind([], tails) == tails
  {
    forall i | 0 <= i < |tails| ensures [] + tails[i] == tails[i] {
    }
  }

  lemma {:induction false} CrossEach(group: seq<AuthScheme>, classes: seq<AuthScheme>, tails: seq<seq<AuthScheme>>)
    ensures Cross(Each(group, classes), tails) == Behind(group, Cross(Singles(classes), tails))
  {
    if classes != [] {
      var n := |classes| - 1;
      CrossEach(group, classes[..n], tails);
      CrossConcat(Each(group, classes[..n]), [group + [classes[n]]], tails);
      CrossConcat(Singles(classes[..n]), [[classes[n]]], tails);
      CrossOne(group + [classes[n]], tails);
      CrossOne([classes[n]], tails);
      BehindBoth(group, classes[n], tails);
      BehindConcat(group, Cross(Singles(classes[..n]), tails), Behind([classes[n]], tails));
    }
  }

  lemma {:induction false} CrossProduct(groups: seq<seq<AuthScheme>>, classes: seq<AuthScheme>,
      tails: seq<seq<AuthScheme>>)
    ensures Cross(Product(groups, classes), tails) == Cross(groups, Cross(Singles(classes), tails))
  {
    if groups != [] {
      var n := |groups| - 1;
      CrossProduct(groups[..n], classes, tails);
      CrossConcat(Product(groups[..n], classes), Each(groups[n], classes), tails);
      CrossEach(groups[n], classes, tails);
    }
  }

  lemma {:induction false} CrossUnit(groups: seq<seq<AuthScheme>>)
    ensures Cross(groups, [[]]) == groups && Cross(groups, []) == []
  {
    if groups != [] {
      var last := groups[|groups| - 1];
      CrossUnit(groups[..|groups| - 1]);
      assert last + [] == last;
      assert Behind(last, [[]]) == [last];
    }
  }

  /** The loop, which extends all groups scheme by scheme, arrives at that order. */
  lemma {:induction false} ExpandInOrder(groups: seq<seq<AuthScheme>>, entries: Requirement, budget: nat)
    requires Expand(groups, entries, budget).Ok?
    ensures var r := Expand(groups, entries, budget).value;
            if r.Some? then r.value == Cross(groups, Choices(entries)) else Choices(entries) == []
    decreases |entries|
  {
    if entries == [] {
      CrossUnit(groups);
    } else if entries[0].Classes? && entries[0].classes != [] {
      CrossProduct(groups, entries[0].classes, Choices(entries[1..]));
      ExpandInOrder(Product(groups, entries[0].classes), entries[1..], budget);
      CrossUnit(Singles(entries[0].classes));
    } else {
      var none: seq<AuthScheme> := if entries[0].Classes? then entries[0].classes else [];
      assert none == [] && Singles(none) == [];
    }
  }

  lemma ChoicesAreCross(entries: Requirement)
    ensures Cross([[]], Choices(entries)) == Choices(entries)
  {
    CrossOne([], Choices(entries));
    BehindNothing(Choices(entries));
  }

  lemma SoundAnonymous()
    ensures Sound([[]]) == [[]]
  {
    SoundFacts([[]]);
  }

  lemma AlternativesInOrder(requirement: Requirement, used: nat)
    requires used <= MAX_GROUPS && Alternatives(requirement, used).Ok?
    ensures Alternatives(requirement, used).value == Sound(Choices(requirement))
  {
    if requirement == [] {
      SoundAnonymous();
    } else {
      ExpandInOrder([[]], requirement, MAX_GROUPS - used);
      ChoicesAreCross(requirement);
    }
  }

  /** The conflict-free choices of all requirements. */
  function AllChoices(requirements: seq<Requirement>): seq<seq<AuthScheme>> {
    if requirements == [] then [] else Sound(Choices(requirements[0])) + AllChoices(requirements[1..])
  }

  lemma NormalizedNext(result: seq<seq<AuthScheme>>, requirements: seq<Requirement>)
    requires |result| <= MAX_GROUPS && requirements != [] && Normalized(result, requirements).Ok?
    ensures var more := Sound(Choices(requirements[0]));
            && |result + more| <= MAX_GROUPS
            && Normalized(result, requirements) == Normalized(result + more, requirements[1..])
  {
    AlternativesWithin(requirements[0], |result|);
    AlternativesInOrder(requirements[0], |result|);
  }

  /** The returned list in order and with multiplicity: requirement by requirement, its
      choices in lexicographic order, the conflicting ones left out. */
  lemma {:induction false} NormalizedInOrder(result: seq<seq<AuthScheme>>, requirements: seq<Requirement>)
    requires |result| <= MAX_GROUPS && Normalized(result, requirements).Ok?
    ensures Normalized(result, requirements).value == result + AllChoices(requirements)
    decreases |requirements|
  {
    if requirements == [] {
      assert result + [] == result;
    } else {
      var more := Sound(Choices(requirements[0]));
      NormalizedNext(result, requirements);
      NormalizedInOrder(result + more, requirements[1..]);
      AssociateSeq(result, more, AllChoices(requirements[1..]));
    }
  }

  // ---- When it is refused ------------------------------------------------------------------------

  /** A supported requirement is refused exactly when its full product does not fit
      beside what was already returned. */
  lemma {:induction false} ExpandRefuses(groups: seq<seq<AuthScheme>>, entries: Requirement, budget: nat)
    requires Supported(entries) && groups != []
    ensures Expand(groups, entries, budget).TooMany? <==> entries != [] && |groups| * Size(entries) > budget
    ensures !Expand(groups, entries, budget).TooMany? ==> Expand(groups, entries, budget).Ok?
    decreases |entries|
  {
    if entries != [] {
      var m := |entries[0].classes|;
      assert forall i | 0 <= i < |entries| - 1 :: entries[1..][i] == entries[i + 1];
      FloorBound(|groups|, budget, m);
      SizePositive(entries[1..]);
      var rest := Size(entries[1..]);
      assert |groups| * Size(entries) == |groups| * m * rest by { Associate(|groups|, m, rest); }
      if |groups| * m > budget {
        Grows(|groups| * m, rest);
      } else {
        assert |groups| * m >= 1 by { Grows(|groups|, m); }
        ExpandRefuses(Product(groups, entries[0].classes), entries[1..], budget);
        if entries[1..] == [] {
          assert rest == 1;
        }
      }
    }
  }

  lemma {:induction false} SizePositive(entries: Requirement)
    requires Supported(entries)
    ensures Size(entries) >= 1
  {
    if entries != [] {
      assert forall i | 0 <= i < |entries| - 1 :: entries[1..][i] == entries[i + 1];
      SizePositive(entries[1..]);
      Grows(|entries[0].classes|, Size(entries[1..]));
    }
  }

  lemma Associate(a: nat, b: nat, c: nat)
    ensures a * (b * c) == a * b * c
  {
  }

  lemma Grows(a: nat, b: nat)
    requires b >= 1
    ensures a * b >= a
  {
  }

  /** So a supported requirement throws exactly when its product would push the list past
      256 groups. */
  lemma RefusedExactlyOverBudget(requirement: Requirement, used: nat)
    requires Supported(requirement) && used <= MAX_GROUPS
    ensures Alternatives(requirement, used).TooMany? <==> used + Size(requirement) > 256
    ensures !Alternatives(requirement, used).Invalid?
  {
    ExpandRefuses([[]], requirement, MAX_GROUPS - used);
  }
}
