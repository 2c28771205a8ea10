/** The migration that rewrites old usernames to lowercase letters, digits and `_`. */
module Usernames {

  const MIN_LENGTH := 3
  const MAX_LENGTH := 30
  const FALLBACK := "user"

  predicate Allowed(ch: char) {
    'a' <= ch <= 'z' || '0' <= ch <= '9' || ch == '_'
  }

  predicate IsValid(name: string) {
    MIN_LENGTH <= |name| <= MAX_LENGTH && forall i :: 0 <= i < |name| ==> Allowed(name[i])
  }

  /** By their codes: the lowercase letters, the digits and the underscore of ASCII, no more. */
  lemma AllowedByCode(ch: char)
    ensures Allowed(ch) <==> 97 <= ch as int <= 122 || 48 <= ch as int <= 57 || ch as int == 95
  {
  }

  /** Only the allowed characters. */
  function Stripped(name: string): (r: string)
    ensures forall i :: 0 <= i < |r| ==> Allowed(r[i])
  {
    if name == "" then ""
    else (if Allowed(name[0]) then [name[0]] else []) + Stripped(name[1..])
  }

  lemma Regrouped(h: string, a: string, b: string, c: string)
    ensures h + (a + b + c) == h + a + b + c
  {
  }

  lemma StrippedFirst(ch: char, rest: string)
    ensures Stripped([ch] + rest) == (if Allowed(ch) then [ch] else []) + Stripped(rest)
  {
    assert ([ch] + rest)[1..] == rest;
  }

  /** Each character is judged by itself and what is kept keeps its order. */
  lemma {:induction false} StrippedByCharacter(x: string, ch: char, y: string)
    ensures Stripped(x + [ch] + y) == Stripped(x) + (if Allowed(ch) then [ch] else []) + Stripped(y)
  {
    if x == "" {
      StrippedFirst(ch, y);
      assert x + [ch] + y == [ch] + y;
    } else {
      StrippedByCharacter(x[1..], ch, y);
      StrippedFirst(x[0], x[1..] + [ch] + y);
      StrippedFirst(x[0], x[1..]);
      assert x == [x[0]] + x[1..];
      Regrouped([x[0]], x[1..], [ch], y);
      Regrouped(if Allowed(x[0]) then [x[0]] else [], Stripped(x[1..]), if Allowed(ch) then [ch] else [], Stripped(y));
    }
  }

  lemma {:induction false} StrippedKeepsAllowed(name: string)
    requires forall i :: 0 <= i < |name| ==> Allowed(name[i])
    ensures Stripped(name) == name
  {
    if name != "" {
      StrippedKeepsAllowed(name[1..]);
      assert name == [name[0]] + name[1..];
    }
  }

  /** `s[:end]`, where a negative end counts from the back. */
  function Slice(s: string, end: int): (r: string)
    ensures r <= s
  {
    if end >= |s| then s
    else if end >= 0 then s[..end]
    else if |s| + end > 0 then s[..|s| + end]
    else ""
  }

  /** The rewritten form of a name, given its fold to ASCII. */
  function Base(folded: string): (r: string)
    ensures IsValid(r)
  {
    var slug := Slice(Stripped(folded), MAX_LENGTH);
    if |slug| >= MIN_LENGTH then slug else FALLBACK
  }

  /** It is as much of the allowed characters as fits, the stand-in only when fewer than three are
      left, and a valid name as it was. */
  lemma BaseKeepsWhatFits(folded: string)
    ensures |Stripped(folded)| >= 3 ==> Base(folded) <= Stripped(folded) && (Base(folded) == Stripped(folded) || |Base(folded)| == 30)
    ensures |Stripped(folded)| < 3 ==> Base(folded) == "user"
    ensures IsValid(folded) ==> Base(folded) == folded
  {
    if IsValid(folded) {
      StrippedKeepsAllowed(folded);
    }
  }

  // ----- numeric suffixes -----

  function Digit(d: nat): char
    requires d < 10
  {
    "0123456789"[d]
  }

  /** The number a numeral stands for. */
  function Number(s: string): int {
    if s == "" then 0 else 10 * Number(s[..|s| - 1]) + (s[|s| - 1] as int - '0' as int)
  }

  /** Suffixes are decimal numerals. */
  lemma {:induction false} StrIsDecimal(n: nat)
    ensures Number(Str(n)) == n
  {
    if n >= 10 {
      StrIsDecimal(n / 10);
      assert Str(n)[..|Str(n)| - 1] == Str(n / 10);
    } else {
      assert Str(n)[..0] == "";
    }
  }

  function Str(n: nat): (s: string)
    ensures s != "" && forall i :: 0 <= i < |s| ==> Allowed(s[i])
  {
    if n < 10 then [Digit(n)] else Str(n / 10) + [Digit(n % 10)]
  }

  lemma StrIsInjective(a: nat, b: nat)
    requires Str(a) == Str(b)
    ensures a == b
  {
    StrIsDecimal(a);
    StrIsDecimal(b);
  }

  function Pow10(k: nat): nat {
    if k == 0 then 1 else 10 * Pow10(k - 1)
  }

  lemma {:induction false} PowGrows(k: nat)
    ensures Pow10(k) > k
  {
    if k > 0 {
      PowGrows(k - 1);
    }
  }

  /** A number has `k` digits exactly when it lies between the powers. */
  lemma {:induction false} StrLength(n: nat, k: nat)
    requires k >= 1 && n < Pow10(k) && (k > 1 ==> Pow10(k - 1) <= n)
    ensures |Str(n)| == k
  {
    if k > 1 {
      PowGrows(k - 2);
      StrLength(n / 10, k - 1);
    }
  }

  /** Fewer digits for smaller numbers. */
  lemma {:induction false} StrIsShort(n: nat, k: nat)
    requires k >= 1 && n < Pow10(k)
    ensures |Str(n)| <= k
  {
    assert Pow10(k) == 10 * Pow10(k - 1);
    if n >= 10 && k > 1 {
      StrIsShort(n / 10, k - 1);
    }
  }

  function Candidate(base: string, n: nat): string {
    Slice(base, MAX_LENGTH - |Str(n)|) + Str(n)
  }

  /** A candidate is the suffix behind as much of the base as fits. */
  lemma CandidateKeepsWhatFits(base: string, n: nat)
    requires |Str(n)| <= 30
    ensures
      var head := |Candidate(base, n)| - |Str(n)|;
      head >= 0 && Candidate(base, n)[head..] == Str(n) && Candidate(base, n)[..head] <= base
      && (head == |base| || |Candidate(base, n)| == 30)
  {
  }

  /** Suffixes of one length give different candidates. */
  lemma CandidatesDiffer(base: string, a: nat, b: nat)
    requires |Str(a)| == |Str(b)| && Candidate(base, a) == Candidate(base, b)
    ensures a == b
  {
    var head := |Slice(base, MAX_LENGTH - |Str(a)|)|;
    assert Candidate(base, a)[head..] == Str(a);
    assert Candidate(base, b)[head..] == Str(b);
    StrIsInjective(a, b);
  }

  /** With at most thirty digits a candidate from a valid base is valid. */
  lemma CandidateIsValid(base: string, n: nat)
    requires IsValid(base) && |Str(n)| <= MAX_LENGTH
    ensures IsValid(Candidate(base, n))
  {
  }

  /** Of as many different suffixes of one length as there are taken names and one more, one
      gives a free name. */
  lemma {:induction false} OneIsFree(base: string, taken: set<string>, from: nat, k: nat) returns (n: nat)
    requires k >= 1 && (k > 1 ==> Pow10(k - 1) <= from) && from + |taken| < Pow10(k)
    ensures from <= n <= from + |taken| && Candidate(base, n) !in taken
    decreases |taken|
  {
    if Candidate(base, from) !in taken {
      return from;
    }
    var fewer := taken - {Candidate(base, from)};
    n := OneIsFree(base, fewer, from + 1, k);
    StrLength(from, k);
    StrLength(n, k);
    if Candidate(base, n) == Candidate(base, from) {
      CandidatesDiffer(base, n, from);
    }
  }

  /** So the search ends, whatever is taken. */
  lemma FreeSuffix(base: string, taken: set<string>) returns (n: nat)
    ensures n >= 2 && Candidate(base, n) !in taken
  {
    var k := |taken| + 1;
    PowGrows(k);
    n := OneIsFree(base, taken, Pow10(k), k + 1);
  }

  /** There are fewer names taken than suffixes of thirty digits. */
  predicate RoomForSuffixes(taken: set<string>) {
    |taken| < 9 * Pow10(29)
  }

  /** And with fewer names taken than there are suffixes of thirty digits, one of at most
      thirty digits is free. */
  lemma FreeShortSuffix(base: string, taken: set<string>) returns (n: nat)
    requires RoomForSuffixes(taken)
    ensures 2 <= n < Pow10(30) && Candidate(base, n) !in taken
  {
    PowGrows(29);
    assert Pow10(30) == 10 * Pow10(29);
    n := OneIsFree(base, taken, Pow10(29), 30);
  }

  /** The name chosen: the base if it is free, else the free candidate of least number. */
  ghost predicate Chosen(base: string, taken: set<string>, name: string) {
    if base !in taken then name == base
    else exists n: nat :: FirstFree(base, taken, n) && name == Candidate(base, n)
  }

  predicate FirstFree(base: string, taken: set<string>, n: nat) {
    n >= 2 && Candidate(base, n) !in taken && forall m: nat :: 2 <= m < n ==> Candidate(base, m) in taken
  }

  lemma ChosenIsUnique(base: string, taken: set<string>, x: string, y: string)
    requires Chosen(base, taken, x) && Chosen(base, taken, y)
    ensures x == y
  {
    if base in taken {
      var m: nat :| FirstFree(base, taken, m) && x == Candidate(base, m);
      var n: nat :| FirstFree(base, taken, n) && y == Candidate(base, n);
      assert m == n;
    }
  }

  lemma ChosenIsValid(base: string, taken: set<string>, name: string)
    requires IsValid(base) && RoomForSuffixes(taken) && Chosen(base, taken, name)
    ensures IsValid(name) && name !in taken
  {
    if base in taken {
      var n: nat :| FirstFree(base, taken, n) && name == Candidate(base, n);
      var short := FreeShortSuffix(base, taken);
      assert n <= short;
      StrIsShort(n, 30);
      CandidateIsValid(base, n);
    }
  }

  method Unique(base: string, taken: set<string>) returns (name: string)
    ensures Chosen(base, taken, name) && name !in taken
    ensures base !in taken ==> name == base
    ensures base in taken && Candidate(base, 2) !in taken ==> name == Candidate(base, 2)
  {
    if base !in taken {
      return base;
    }
    ghost var free := FreeSuffix(base, taken);
    var n := 2;
    while Candidate(base, n) in taken
      invariant 2 <= n <= free
      invariant forall m: nat :: 2 <= m < n ==> Candidate(base, m) in taken
      decreases free - n
    {
      n := n + 1;
    }
    assert FirstFree(base, taken, n);
    return Candidate(base, n);
  }

  // ----- the migration -----

  type Id = nat

  predicate AllDifferent(names: map<Id, string>) {
    forall i, j :: i in names && j in names && names[i] == names[j] ==> i == j
  }

  /** The table, with the uniqueness of names that the database enforces. */
  class Users {
    var names: map<Id, string>

    constructor (names: map<Id, string>)
      ensures this.names == names
    {
      this.names := names;
    }

    /** One row's update; the unique index must not be violated by it. */
    method Rename(id: Id, name: string)
      requires id in names && AllDifferent(names) && forall i :: i in names && i != id ==> names[i] != name
      modifies this
      ensures names == old(names)[id := name] && AllDifferent(names)
    {
      names := names[id := name];
    }
  }

  /** The names held by valid rows. */
  method ValidNames(rows: seq<Id>, names: map<Id, string>) returns (taken: set<string>)
    requires forall id :: id in rows ==> id in names
    ensures forall s :: s in taken <==> exists id :: id in rows && names[id] == s && IsValid(s)
  {
    taken := {};
    var i := 0;
    while i < |rows|
      invariant 0 <= i <= |rows|
      invariant forall s :: s in taken <==> exists id :: id in rows[..i] && names[id] == s && IsValid(s)
    {
      assert rows[..i + 1] == rows[..i] + [rows[i]];
      assert forall id :: id in rows[..i + 1] <==> id in rows[..i] || id == rows[i];
      if IsValid(names[rows[i]]) {
        taken := taken + {names[rows[i]]};
      }
      i := i + 1;
    }
    assert rows[..i] == rows;
  }

  /** What one row ends with: its own name if that was valid, a free valid one otherwise. */
  predicate Settled(was: string, name: string, reserved: string) {
    IsValid(name) && (if IsValid(was) then name == was else name != reserved)
  }

  /** The state halfway: rows done are settled, the others untouched, names all different, and
      `taken` holds the reserved name and every valid name in the table. */
  ghost predicate Halfway(was: map<Id, string>, names: map<Id, string>, done: seq<Id>, taken: set<string>, reserved: string) {
    && names.Keys == was.Keys && AllDifferent(names) && reserved in taken
    && (forall id :: id in names && IsValid(names[id]) ==> names[id] in taken)
    && (forall id :: id in names ==> if id in done then Settled(was[id], names[id], reserved) else names[id] == was[id])
  }

  lemma ValidRowSettles(was: map<Id, string>, names: map<Id, string>, done: seq<Id>, id: Id, taken: set<string>, reserved: string)
    requires Halfway(was, names, done, taken, reserved) && id in names && id !in done && IsValid(names[id])
    ensures Halfway(was, names, done + [id], taken, reserved)
  {
  }

  lemma RewrittenRowSettles(was: map<Id, string>, names: map<Id, string>, done: seq<Id>, id: Id, name: string,
                            taken: set<string>, reserved: string)
    requires Halfway(was, names, done, taken, reserved) && id in names && id !in done && !IsValid(names[id])
    requires IsValid(name) && name !in taken
    ensures forall i :: i in names && i != id ==> names[i] != name
    ensures Halfway(was, names[id := name], done + [id], taken + {name}, reserved)
  {
    forall i | i in names && i != id ensures names[i] != name {
      assert IsValid(names[i]) ==> names[i] in taken;
    }
  }

  /** The table is smaller than the number of suffixes of thirty digits. */
  predicate FewRows(rows: seq<Id>) {
    |rows| + 1 < 9 * Pow10(29)
  }

  /** The names these rows hold. */
  function NamesOf(names: map<Id, string>, rows: seq<Id>): set<string>
    requires forall id :: id in rows ==> id in names
  {
    set id | id in rows :: names[id]
  }

  /** The rows are in the table, each once. */
  predicate Listed(rows: seq<Id>, names: map<Id, string>) {
    (forall id :: id in rows ==> id in names) && forall i, j :: 0 <= i < j < |rows| ==> rows[i] != rows[j]
  }

  /** Row `k` was rewritten to the first name free beside the names held from the start and
      those of the rows before it; older accounts choose first. */
  ghost predicate ChoseInTurn(was: map<Id, string>, names: map<Id, string>, rows: seq<Id>, k: int, held: set<string>,
                              folded: string -> string)
    requires 0 <= k < |rows| && Listed(rows, names) && names.Keys == was.Keys
  {
    IsValid(was[rows[k]]) || Chosen(Base(folded(was[rows[k]])), held + NamesOf(names, rows[..k]), names[rows[k]])
  }

  ghost predicate AllInTurn(was: map<Id, string>, names: map<Id, string>, rows: seq<Id>, n: int, held: set<string>,
                            folded: string -> string)
    requires 0 <= n <= |rows| && Listed(rows, names) && names.Keys == was.Keys
  {
    forall k :: 0 <= k < n ==> ChoseInTurn(was, names, rows, k, held, folded)
  }

  /** Renaming a later row does not touch the choices made before. */
  lemma EarlierChoicesStand(was: map<Id, string>, names: map<Id, string>, rows: seq<Id>, n: int, held: set<string>,
                            folded: string -> string, name: string)
    requires 0 <= n < |rows| && Listed(rows, names) && names.Keys == was.Keys
    requires AllInTurn(was, names, rows, n, held, folded)
    ensures AllInTurn(was, names[rows[n] := name], rows, n, held, folded)
    ensures NamesOf(names[rows[n] := name], rows[..n]) == NamesOf(names, rows[..n])
  {
    var after := names[rows[n] := name];
    forall k | 0 <= k < n ensures ChoseInTurn(was, after, rows, k, held, folded) {
      assert ChoseInTurn(was, names, rows, k, held, folded);
      assert NamesOf(after, rows[..k]) == NamesOf(names, rows[..k]);
    }
  }

  lemma OneMoreHeld(names: map<Id, string>, rows: seq<Id>, n: int)
    requires 0 <= n < |rows| && Listed(rows, names)
    ensures NamesOf(names, rows[..n + 1]) == NamesOf(names, rows[..n]) + {names[rows[n]]}
  {
    assert rows[..n + 1] == rows[..n] + [rows[n]];
  }

  /** Choose a free name for one row and write it. */
  method RewriteRow(users: Users, id: Id, taken: set<string>, folded: string -> string) returns (name: string)
    requires id in users.names && AllDifferent(users.names) && !IsValid(users.names[id])
    requires RoomForSuffixes(taken) && forall i :: i in users.names && IsValid(users.names[i]) ==> users.names[i] in taken
    modifies users
    ensures Chosen(Base(folded(old(users.names)[id])), taken, name) && IsValid(name) && name !in taken
    ensures users.names == old(users.names)[id := name] && AllDifferent(users.names)
  {
    name := Unique(Base(folded(users.names[id])), taken);
    ChosenIsValid(Base(folded(users.names[id])), taken, name);
    users.Rename(id, name);
  }

  /** The names no row may be rewritten to from the start: the valid ones and the reserved one. */
  function HeldNames(names: map<Id, string>, reserved: string): set<string> {
    (set id | id in names && IsValid(names[id]) :: names[id]) + {reserved}
  }

  /** The migration before turn `i`. */
  ghost predicate Turn(was: map<Id, string>, names: map<Id, string>, rows: seq<Id>, i: int, taken: set<string>,
                       held: set<string>, reserved: string, folded: string -> string)
    requires 0 <= i <= |rows| && Listed(rows, names) && names.Keys == was.Keys
  {
    && Halfway(was, names, rows[..i], taken, reserved)
    && AllInTurn(was, names, rows, i, held, folded)
    && taken == held + NamesOf(names, rows[..i])
  }

  lemma {:induction false} FewNames(names: map<Id, string>, rows: seq<Id>)
    requires forall id :: id in rows ==> id in names
    ensures |NamesOf(names, rows)| <= |rows|
  {
    if rows != [] {
      var rest := rows[1..];
      assert rows == [rows[0]] + rest;
      FewNames(names, rest);
      assert NamesOf(names, rows) == NamesOf(names, rest) + {names[rows[0]]};
    } else {
      assert NamesOf(names, rows) == {};
    }
  }

  /** The names held from the start are the reserved one and valid names of these rows. */
  ghost predicate NamesFrom(held: set<string>, was: map<Id, string>, rows: seq<Id>, reserved: string) {
    forall s :: s in held && s != reserved ==> exists i :: 0 <= i < |rows| && rows[i] in was && was[rows[i]] == s && IsValid(s)
  }

  /** The names taken are the reserved one and names now in the table, so they stay few. */
  lemma TakenIsSmall(was: map<Id, string>, names: map<Id, string>, rows: seq<Id>, i: int, taken: set<string>,
                     held: set<string>, reserved: string, folded: string -> string)
    requires 0 <= i <= |rows| && Listed(rows, names) && names.Keys == was.Keys
    requires Turn(was, names, rows, i, taken, held, reserved, folded)
    requires NamesFrom(held, was, rows, reserved)
    ensures |taken| <= |rows| + 1
  {
    var all := NamesOf(names, rows);
    FewNames(names, rows);
    forall s | s in taken ensures s in all + {reserved} {
      if s in held && s != reserved {
        var j :| 0 <= j < |rows| && rows[j] in was && was[rows[j]] == s && IsValid(s);
        assert rows[j] in rows && names[rows[j]] == s;
      }
    }
    SmallerSet(taken, all + {reserved});
  }

  lemma HeldAreNames(was: map<Id, string>, rows: seq<Id>, reserved: string)
    requires forall id :: id in was ==> id in rows
    ensures NamesFrom(HeldNames(was, reserved), was, rows, reserved)
  {
    forall s | s in HeldNames(was, reserved) && s != reserved
      ensures exists i :: 0 <= i < |rows| && rows[i] in was && was[rows[i]] == s && IsValid(s)
    {
      var id :| id in was && IsValid(was[id]) && was[id] == s;
      var i :| 0 <= i < |rows| && rows[i] == id;
    }
  }

  lemma SmallerSet(s: set<string>, t: set<string>)
    requires s <= t
    ensures |s| <= |t|
    decreases |s|
  {
    if s != {} {
      var x :| x in s;
      SmallerSet(s - {x}, t - {x});
    }
  }

  lemma NotYetDone(rows: seq<Id>, names: map<Id, string>, i: int)
    requires 0 <= i < |rows| && Listed(rows, names)
    ensures rows[i] !in rows[..i] && rows[..i + 1] == rows[..i] + [rows[i]]
  {
  }

  /** A valid name is passed over. */
  lemma KeepTurn(was: map<Id, string>, names: map<Id, string>, rows: seq<Id>, i: int, taken: set<string>,
                 held: set<string>, reserved: string, folded: string -> string)
    requires 0 <= i < |rows| && Listed(rows, names) && names.Keys == was.Keys
    requires Turn(was, names, rows, i, taken, held, reserved, folded) && IsValid(names[rows[i]])
    ensures Turn(was, names, rows, i + 1, taken, held, reserved, folded)
  {
    NotYetDone(rows, names, i);
    ValidRowSettles(was, names, rows[..i], rows[i], taken, reserved);
    OneMoreHeld(names, rows, i);
    assert taken + {names[rows[i]]} == taken;
  }

  /** An invalid one becomes the first free name. */
  lemma RewriteTurn(was: map<Id, string>, names: map<Id, string>, rows: seq<Id>, i: int, taken: set<string>,
                    held: set<string>, reserved: string, folded: string -> string, name: string)
    requires 0 <= i < |rows| && Listed(rows, names) && names.Keys == was.Keys
    requires Turn(was, names, rows, i, taken, held, reserved, folded) && !IsValid(names[rows[i]])
    requires Chosen(Base(folded(names[rows[i]])), taken, name) && IsValid(name) && name !in taken
    ensures Turn(was, names[rows[i] := name], rows, i + 1, taken + {name}, held, reserved, folded)
  {
    var after := names[rows[i] := name];
    NotYetDone(rows, names, i);
    RewrittenRowSettles(was, names, rows[..i], rows[i], name, taken, reserved);
    EarlierChoicesStand(was, names, rows, i, held, folded, name);
    assert ChoseInTurn(was, after, rows, i, held, folded);
    OneMoreHeld(after, rows, i);
  }

  /** Rewrite every row whose name is invalid, oldest first. `folded` is the fold of each name
      to ASCII. Every update keeps names unique; at the end all are valid and different, valid
      ones are as they were, no rewritten row holds the reserved name, and each rewritten row
      holds the first name that was free when its turn came. */
  method Upgrade(users: Users, rows: seq<Id>, reserved: string, folded: string -> string)
    requires AllDifferent(users.names) && Listed(rows, users.names) && forall id :: id in users.names ==> id in rows
    requires FewRows(rows)
    modifies users
    ensures users.names.Keys == old(users.names).Keys && AllDifferent(users.names)
    ensures forall id :: id in users.names ==> Settled(old(users.names)[id], users.names[id], reserved)
    ensures AllInTurn(old(users.names), users.names, rows, |rows|, HeldNames(old(users.names), reserved), folded)
  {
    ghost var was := users.names;
    var taken := StartNames(rows, users.names, reserved, folded);
    HeldAreNames(was, rows, reserved);
    taken := TakeTurns(users, rows, taken, was, HeldNames(was, reserved), reserved, folded);
    TurnsDone(was, users.names, rows, taken, HeldNames(was, reserved), reserved, folded);
  }

  /** All rows' turns, in order. */
  method TakeTurns(users: Users, rows: seq<Id>, start: set<string>, ghost was: map<Id, string>,
                   ghost held: set<string>, reserved: string, folded: string -> string) returns (taken: set<string>)
    requires Listed(rows, users.names) && users.names.Keys == was.Keys && FewRows(rows)
    requires Turn(was, users.names, rows, 0, start, held, reserved, folded)
    requires NamesFrom(held, was, rows, reserved)
    modifies users
    ensures Listed(rows, users.names) && users.names.Keys == was.Keys
    ensures Turn(was, users.names, rows, |rows|, taken, held, reserved, folded)
  {
    taken := start;
    var i := 0;
    while i < |rows|
      invariant 0 <= i <= |rows| && Listed(rows, users.names) && users.names.Keys == was.Keys
      invariant Turn(was, users.names, rows, i, taken, held, reserved, folded)
    {
      taken := TakeTurn(users, rows, i, taken, was, held, reserved, folded);
      i := i + 1;
    }
  }

  /** One row's turn. */
  method TakeTurn(users: Users, rows: seq<Id>, i: nat, taken: set<string>, ghost was: map<Id, string>,
                  ghost held: set<string>, reserved: string, folded: string -> string) returns (now: set<string>)
    requires i < |rows| && Listed(rows, users.names) && users.names.Keys == was.Keys && FewRows(rows)
    requires NamesFrom(held, was, rows, reserved)
    requires Turn(was, users.names, rows, i, taken, held, reserved, folded)
    modifies users
    ensures Listed(rows, users.names) && users.names.Keys == was.Keys
    ensures Turn(was, users.names, rows, i + 1, now, held, reserved, folded)
  {
    ghost var names := users.names;
    if IsValid(users.names[rows[i]]) {
      KeepTurn(was, names, rows, i, taken, held, reserved, folded);
      return taken;
    }
    TakenIsSmall(was, names, rows, i, taken, held, reserved, folded);
    var name := RewriteRow(users, rows[i], taken, folded);
    RewriteTurn(was, names, rows, i, taken, held, reserved, folded, name);
    return taken + {name};
  }

  lemma TurnsDone(was: map<Id, string>, names: map<Id, string>, rows: seq<Id>, taken: set<string>,
                  held: set<string>, reserved: string, folded: string -> string)
    requires Listed(rows, names) && names.Keys == was.Keys && forall id :: id in names ==> id in rows
    requires Turn(was, names, rows, |rows|, taken, held, reserved, folded)
    ensures AllDifferent(names) && AllInTurn(was, names, rows, |rows|, held, folded)
    ensures forall id :: id in names ==> Settled(was[id], names[id], reserved)
  {
    assert rows[..|rows|] == rows;
  }

  /** The names taken before the first turn. */
  method StartNames(rows: seq<Id>, names: map<Id, string>, reserved: string, folded: string -> string) returns (taken: set<string>)
    requires AllDifferent(names) && Listed(rows, names) && forall id :: id in names ==> id in rows
    ensures Turn(names, names, rows, 0, taken, HeldNames(names, reserved), reserved, folded)
  {
    taken := ValidNames(rows, names);
    taken := taken + {reserved};
    assert taken == HeldNames(names, reserved);
    assert taken + NamesOf(names, []) == taken && rows[..0] == [];
  }

  // ----- the result is determined -----

  lemma SameNamesSoFar(x: map<Id, string>, y: map<Id, string>, rows: seq<Id>)
    requires (forall id :: id in rows ==> id in x && id in y && x[id] == y[id])
    ensures NamesOf(x, rows) == NamesOf(y, rows)
  {
  }

  /** Rows before this one agreeing, so does this one. */
  lemma TurnAgrees(was: map<Id, string>, x: map<Id, string>, y: map<Id, string>, rows: seq<Id>, k: nat,
                   held: set<string>, reserved: string, folded: string -> string)
    requires k < |rows| && Listed(rows, x) && Listed(rows, y) && x.Keys == y.Keys == was.Keys
    requires ChoseInTurn(was, x, rows, k, held, folded) && ChoseInTurn(was, y, rows, k, held, folded)
    requires Settled(was[rows[k]], x[rows[k]], reserved) && Settled(was[rows[k]], y[rows[k]], reserved)
    requires forall j :: 0 <= j < k ==> x[rows[j]] == y[rows[j]]
    ensures x[rows[k]] == y[rows[k]]
  {
    SameNamesSoFar(x, y, rows[..k]);
    if !IsValid(was[rows[k]]) {
      ChosenIsUnique(Base(folded(was[rows[k]])), held + NamesOf(x, rows[..k]), x[rows[k]], y[rows[k]]);
    }
  }

  lemma {:induction false} TurnsAgree(was: map<Id, string>, x: map<Id, string>, y: map<Id, string>, rows: seq<Id>, n: nat,
                                      held: set<string>, reserved: string, folded: string -> string)
    requires n <= |rows| && Listed(rows, x) && Listed(rows, y) && x.Keys == y.Keys == was.Keys
    requires AllInTurn(was, x, rows, |rows|, held, folded) && AllInTurn(was, y, rows, |rows|, held, folded)
    requires forall id :: id in was ==> Settled(was[id], x[id], reserved) && Settled(was[id], y[id], reserved)
    ensures forall k :: 0 <= k < n ==> x[rows[k]] == y[rows[k]]
    decreases n
  {
    if n > 0 {
      var k := n - 1;
      TurnsAgree(was, x, y, rows, k, held, reserved, folded);
      assert ChoseInTurn(was, x, rows, k, held, folded) && ChoseInTurn(was, y, rows, k, held, folded);
      assert rows[k] in rows;
      TurnAgrees(was, x, y, rows, k, held, reserved, folded);
    }
  }

  /** The contract of the upgrade leaves one table only: it is a function of the old names, the
      order of the rows and the reserved name. */
  lemma UpgradeIsDetermined(was: map<Id, string>, x: map<Id, string>, y: map<Id, string>, rows: seq<Id>,
                            reserved: string, folded: string -> string)
    requires Listed(rows, x) && Listed(rows, y) && x.Keys == y.Keys == was.Keys && forall id :: id in was ==> id in rows
    requires AllInTurn(was, x, rows, |rows|, HeldNames(was, reserved), folded)
    requires AllInTurn(was, y, rows, |rows|, HeldNames(was, reserved), folded)
    requires forall id :: id in was ==> Settled(was[id], x[id], reserved) && Settled(was[id], y[id], reserved)
    ensures x == y
  {
    TurnsAgree(was, x, y, rows, |rows|, HeldNames(was, reserved), reserved, folded);
    forall id | id in x ensures x[id] == y[id] {
      var k :| 0 <= k < |rows| && rows[k] == id;
    }
  }
}
