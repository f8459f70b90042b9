/** Next up: the turn order, its rotation on Reveal and Skip, and the handoff when
    the holder becomes a guest (internal/repository/sqlite.go). */
module Turn {
  import opened Domain

  datatype Role = Member | Guest | Admin

  datatype User = User(createdAt: int, role: Role, archived: bool)

  type Users = map<nat, User>

  /** A row of the turn_participants view. */
  predicate Participates(users: Users, id: nat) {
    id in users && !users[id].archived && users[id].role != Guest
  }

  function Participants(users: Users): set<nat> {
    set id | id in users && Participates(users, id)
  }

  /** ORDER BY created_at, id. */
  predicate Before(users: Users, a: nat, b: nat) {
    a in users && b in users &&
    (users[a].createdAt < users[b].createdAt || (users[a].createdAt == users[b].createdAt && a < b))
  }

  /** ORDER BY (0 when after `from`, else 1), created_at, id: the order in which SetRole
      looks for the successor of the seat `from`. */
  predicate SucceedsBefore(users: Users, from: nat, a: nat, b: nat) {
    if Before(users, from, a) == Before(users, from, b) then Before(users, a, b)
    else Before(users, from, a)
  }

  ghost predicate IsLeast(s: set<nat>, less: (nat, nat) -> bool, x: nat) {
    x in s && forall y :: y in s ==> x == y || less(x, y)
  }

  /** Every finite non-empty set has a least element under a total order. */
  lemma {:induction false} LeastExists(s: set<nat>, less: (nat, nat) -> bool)
    requires s != {}
    requires forall a, b :: a in s && b in s ==> a == b || less(a, b) || less(b, a)
    requires forall a, b, c :: a in s && b in s && c in s && less(a, b) && less(b, c) ==> less(a, c)
    ensures exists x :: IsLeast(s, less, x)
  {
    var x :| x in s;
    var rest := s - {x};
    var least := x;
    if rest != {} {
      LeastExists(rest, less);
      var y :| IsLeast(rest, less, y);
      least := if less(x, y) then x else y;
    }
    forall b | b in s ensures least == b || less(least, b) {
      assert b == x || b in rest;
    }
    assert IsLeast(s, less, least);
  }

  /** x comes first among s in ORDER BY created_at, id. */
  predicate IsFirst(users: Users, s: set<nat>, x: nat) {
    x in s && forall y :: y in s ==> x == y || Before(users, x, y)
  }

  lemma FirstExists(users: Users, s: set<nat>)
    requires s <= users.Keys && s != {}
    ensures exists x :: x in s && IsFirst(users, s, x)
  {
    var less := (a: nat, b: nat) => Before(users, a, b);
    LeastExists(s, less);
    var x :| IsLeast(s, less, x);
    assert forall y :: y in s ==> x == y || less(x, y);
    assert IsFirst(users, s, x);
  }

  /** The rows of s in ORDER BY created_at, id. */
  function Sorted(users: Users, s: set<nat>): (rows: seq<nat>)
    requires s <= users.Keys
    ensures forall id :: id in rows <==> id in s
    ensures forall i, j :: 0 <= i < j < |rows| ==> Before(users, rows[i], rows[j])
    decreases |s|
  {
    if s == {} then []
    else
      FirstExists(users, s);
      assert forall x, y | IsFirst(users, s, x) && IsFirst(users, s, y) :: x == y;
      var first :| first in s && IsFirst(users, s, first);
      [first] + Sorted(users, s - {first})
  }

  /** SELECT id FROM turn_participants ORDER BY created_at, id. */
  function Roster(users: Users): (rows: seq<nat>)
    ensures forall id :: id in rows <==> Participates(users, id)
    ensures forall i, j :: 0 <= i < j < |rows| ==> Before(users, rows[i], rows[j])
  {
    Sorted(users, Participants(users))
  }

  /** The position of the stored holder, or -1 when the holder left the rotation. A
      fresh install counts as if the first member held the turn. */
  function HolderIndex(roster: seq<nat>, stored: Option<nat>): (i: int)
    requires |roster| > 0
    ensures -1 <= i < |roster|
    ensures stored.None? ==> i == 0
    ensures stored.Some? ==> (i == -1 <==> stored.value !in roster)
    ensures stored.Some? && i >= 0 ==> roster[i] == stored.value
  {
    if stored.None? then 0 else IndexOf(roster, stored.value)
  }

  function IndexOf(rows: seq<nat>, id: nat): (i: int)
    ensures -1 <= i < |rows|
    ensures i == -1 <==> id !in rows
    ensures i >= 0 ==> rows[i] == id
  {
    if rows == [] then -1
    else if rows[0] == id then 0
    else
      var rest := IndexOf(rows[1..], id);
      if rest == -1 then -1 else rest + 1
  }

  /** Each id stands at one position only. */
  ghost predicate Distinct(rows: seq<nat>) {
    forall k :: 0 <= k < |rows| ==> IndexOf(rows, rows[k]) == k
  }

  lemma RosterIsDistinct(users: Users)
    ensures Distinct(Roster(users))
  {
    var rows := Roster(users);
    forall k | 0 <= k < |rows| ensures IndexOf(rows, rows[k]) == k {
      forall j | 0 <= j < k ensures rows[j] != rows[k] {
        assert Before(users, rows[j], rows[k]);
      }
      FirstIndex(rows, k);
    }
  }

  lemma {:induction false} FirstIndex(rows: seq<nat>, k: nat)
    requires k < |rows| && forall j :: 0 <= j < k ==> rows[j] != rows[k]
    ensures IndexOf(rows, rows[k]) == k
    decreases |rows|
  {
    if k > 0 {
      FirstIndex(rows[1..], k - 1);
    }
  }

  /** (i + 1) % n for an index of a roster of n. */
  function Following(i: int, n: nat): (next: nat)
    requires n > 0 && -1 <= i < n
    ensures next == if i + 1 == n then 0 else i + 1
  {
    (i + 1) % n
  }

  /** The turn after one rotation: unchanged with fewer than two participants. */
  function Rotated(roster: seq<nat>, stored: Option<nat>): (next: Option<nat>)
    ensures |roster| >= 2 ==> next.Some? && next.value in roster
  {
    if |roster| < 2 then stored
    else Some(roster[Following(HolderIndex(roster, stored), |roster|)])
  }

  /** The turn after SetRole makes `member` a guest: the first remaining participant in
      SucceedsBefore order, or nobody. */
  function Handoff(users: Users, member: nat): (next: Option<nat>)
    requires member in users && !Participates(users, member)
    ensures next.None? <==> Participants(users) == {}
    ensures next.Some? ==> next.value in Participants(users)
    ensures next.Some? ==> forall c :: c in Participants(users) ==>
      c == next.value || SucceedsBefore(users, member, next.value, c)
  {
    var s := Participants(users);
    if s == {} then None
    else
      var less := (a: nat, b: nat) => SucceedsBefore(users, member, a, b);
      LeastExists(s, less);
      assert exists x :: x in s && forall y :: y in s ==> x == y || SucceedsBefore(users, member, x, y) by {
        var x :| IsLeast(s, less, x);
        assert forall y :: y in s ==> x == y || less(x, y);
      }
      var first :| first in s && forall y :: y in s ==> first == y || SucceedsBefore(users, member, first, y);
      Some(first)
  }

  function ActiveAdmins(users: Users): set<nat> {
    set id | id in users && users[id].role == Admin && !users[id].archived
  }

  /** The users and next_up tables. */
  class TurnStore {
    var users: Users
    var nextUp: Option<nat>

    constructor ()
      ensures users == map[] && nextUp == None
    {
      users := map[];
      nextUp := None;
    }

    /** advanceNextUpTx. */
    method AdvanceNextUp() returns (next: Option<nat>)
      modifies this`nextUp
      ensures nextUp == Rotated(Roster(users), old(nextUp))
      ensures next == if |Roster(users)| < 2 then None else nextUp
    {
      var roster := Roster(users);
      if |roster| < 2 {
        return None;
      }
      var currentIndex := -1;
      if nextUp.None? {
        currentIndex := 0;
      } else {
        var i := 0;
        while i < |roster|
          invariant 0 <= i <= |roster|
          invariant currentIndex == -1
          invariant forall k :: 0 <= k < i ==> roster[k] != nextUp.value
        {
          if roster[i] == nextUp.value {
            currentIndex := i;
            break;
          }
          i := i + 1;
        }
        RosterIsDistinct(users);
      }
      var nextIndex := 0;
      if currentIndex >= 0 {
        nextIndex := Following(currentIndex, |roster|);
      }
      nextUp := Some(roster[nextIndex]);
      return nextUp;
    }

    /** Skip: the admin's explicit handoff. `unrevealed` answers whether the current draw
        still hides its winner. */
    method Skip(holder: nat, unrevealed: bool) returns (r: Result<nat>)
      modifies this`nextUp
      ensures !(Participates(users, holder) && old(nextUp) == Some(holder)) ==> r == Err(NextUpChanged)
      ensures Participates(users, holder) && old(nextUp) == Some(holder) && unrevealed ==> r == Err(DrawNotRevealed)
      ensures r.Err? ==> nextUp == old(nextUp)
      ensures r.Ok? ==> nextUp == Rotated(Roster(users), old(nextUp)) && nextUp == Some(r.value) && r.value != holder
      ensures Participates(users, holder) && old(nextUp) == Some(holder) && !unrevealed ==>
        r == (if |Roster(users)| < 2 then Err(Conflict) else Ok(Rotated(Roster(users), old(nextUp)).value))
    {
      if nextUp.None? || !Participates(users, nextUp.value) || nextUp.value != holder {
        return Err(NextUpChanged);
      }
      if unrevealed {
        return Err(DrawNotRevealed);
      }
      ghost var before := Roster(users);
      var next := AdvanceNextUp();
      if next.None? {
        return Err(Conflict);
      }
      RosterIsDistinct(users);
      RotationMoves(before, holder);
      return Ok(next.value);
    }

    /** SetFirstEligible: the self-heal for an empty or stale pointer. */
    method SetFirstEligible() returns (r: Result<nat>)
      modifies this`nextUp
      ensures Participants(users) == {} ==> r == Err(NotFound) && nextUp == old(nextUp)
      ensures Participants(users) != {} ==> r.Ok? && nextUp == Some(r.value) && Participates(users, r.value)
      ensures r.Ok? ==> forall id :: Participates(users, id) ==> id == r.value || Before(users, r.value, id)
    {
      var roster := Roster(users);
      if |roster| == 0 {
        assert forall id :: id in Participants(users) ==> id in roster;
        return Err(NotFound);
      }
      assert roster[0] in roster;
      nextUp := Some(roster[0]);
      return Ok(roster[0]);
    }

    /** SetRole: guards, role write and turn move in one transaction. */
    method SetRole(member: nat, role: Role, confirmed: bool) returns (r: Result<bool>)
      modifies this
      ensures r.Err? || r == Ok(false) ==> users == old(users) && nextUp == old(nextUp)
      ensures (member !in old(users) || old(users)[member].archived) <==> r == Err(NotFound)
      ensures r == Ok(true) ==> users == old(users)[member := old(users)[member].(role := role)]
      ensures r == Ok(true) ==>
        nextUp == if role == Guest && old(nextUp) == Some(member) then Handoff(users, member) else old(nextUp)
      ensures r == Ok(true) && role == Guest && old(nextUp) == Some(member) ==> confirmed
      ensures r == Ok(true) && ActiveAdmins(old(users)) != {} ==> ActiveAdmins(users) != {}
    {
      if member !in users || users[member].archived {
        return Err(NotFound);
      }
      var current := users[member].role;
      if current == role {
        return Ok(false);
      }
      if current == Admin && |ActiveAdmins(users)| <= 1 {
        return Err(Conflict);
      }
      if role == Guest && !confirmed && nextUp == Some(member) {
        return Err(HandoffConfirmationRequired);
      }
      ghost var oldAdmins := ActiveAdmins(users);
      users := users[member := users[member].(role := role)];
      assert oldAdmins - {member} <= ActiveAdmins(users);
      if role == Guest && nextUp == Some(member) {
        nextUp := Handoff(users, member);
      }
      if current == Admin {
        assert |oldAdmins - {member}| >= 1;
      } else if oldAdmins != {} {
        var admin :| admin in oldAdmins;
        assert admin in ActiveAdmins(users);
      }
      return Ok(true);
    }
  }

  lemma RotationMoves(roster: seq<nat>, holder: nat)
    requires Distinct(roster) && |roster| >= 2 && holder in roster
    ensures Rotated(roster, Some(holder)) != Some(holder)
  {
    assert IndexOf(roster, roster[Following(IndexOf(roster, holder), |roster|)]) != IndexOf(roster, holder);
  }

  /** Demoting the holder hands the turn to exactly the member a rotation of the old
      roster would have chosen. */
  lemma DemotionIsRotation(users: Users, holder: nat)
    requires Participates(users, holder) && |Roster(users)| >= 2
    ensures Handoff(users[holder := users[holder].(role := Guest)], holder) == Rotated(Roster(users), Some(holder))
  {
    var after := users[holder := users[holder].(role := Guest)];
    var roster := Roster(users);
    var chosen := Rotated(roster, Some(holder)).value;
    RosterIsDistinct(users);
    RotationMoves(roster, holder);
    RemainingParticipants(users, holder, chosen);
    var next := Handoff(after, holder).value;
    RemainingParticipants(users, holder, next);
    if next != chosen {
      SuccessorIsFirst(users, after, roster, holder, next);
    }
  }

  /** Who is left to hand the turn to. */
  lemma RemainingParticipants(users: Users, holder: nat, id: nat)
    requires Participates(users, holder)
    ensures id in Participants(users[holder := users[holder].(role := Guest)]) <==> id != holder && id in Roster(users)
  {
    assert id in Roster(users) <==> Participates(users, id);
  }

  lemma SuccessorIsFirst(users: Users, after: Users, roster: seq<nat>, holder: nat, other: nat)
    requires forall a, b :: 0 <= a < b < |roster| ==> Before(users, roster[a], roster[b])
    requires users.Keys == after.Keys && forall u :: u in users ==> users[u].createdAt == after[u].createdAt
    requires |roster| >= 2 && holder in roster && other in roster
    requires holder != other && Some(other) != Rotated(roster, Some(holder))
    ensures SucceedsBefore(after, holder, Rotated(roster, Some(holder)).value, other)
    ensures !SucceedsBefore(after, holder, other, Rotated(roster, Some(holder)).value)
  {
    var i, k := IndexOf(roster, holder), IndexOf(roster, other);
    var j := Following(i, |roster|);
    OrderKept(users, after, roster, i, k);
    OrderKept(users, after, roster, i, j);
    OrderKept(users, after, roster, j, k);
    OrderKept(users, after, roster, k, j);
  }

  /** Changing roles keeps the seat order, which is the order of roster positions. */
  lemma OrderKept(users: Users, after: Users, roster: seq<nat>, j: nat, k: nat)
    requires forall a, b :: 0 <= a < b < |roster| ==> Before(users, roster[a], roster[b])
    requires users.Keys == after.Keys && forall u :: u in users ==> users[u].createdAt == after[u].createdAt
    requires j < |roster| && k < |roster|
    ensures Before(after, roster[j], roster[k]) <==> j < k
  {
    if j < k {
      assert Before(users, roster[j], roster[k]);
    } else if k < j {
      assert Before(users, roster[k], roster[j]);
    }
  }

  /** The members who hold the turn after each of k rotations over a fixed roster. */
  function Visits(roster: seq<nat>, stored: Option<nat>, k: nat): (visited: seq<nat>)
    requires |roster| >= 2
    ensures |visited| == k
    decreases k
  {
    if k == 0 then []
    else
      var next := Rotated(roster, stored).value;
      [next] + Visits(roster, Some(next), k - 1)
  }

  /** Reading on from position i + 1 of the ring. */
  function Ring(roster: seq<nat>, i: nat, k: nat): seq<nat>
    requires i < |roster| && k <= |roster|
  {
    (roster + roster)[i + 1..][..k]
  }

  lemma RingStep(roster: seq<nat>, i: nat, k: nat)
    requires i < |roster| && 0 < k <= |roster|
    ensures var j := Following(i, |roster|); Ring(roster, i, k) == [roster[j]] + Ring(roster, j, k - 1)
  {
    var j := Following(i, |roster|);
    var left, right := Ring(roster, i, k), [roster[j]] + Ring(roster, j, k - 1);
    forall n | 0 <= n < k ensures left[n] == right[n] {
      assert left[n] == (roster + roster)[i + 1 + n];
      assert n > 0 ==> right[n] == (roster + roster)[j + n];
    }
  }

  /** Rotations walk the roster as a ring: from position i they read on from i + 1. */
  lemma {:induction false} VisitsFollowTheRing(roster: seq<nat>, holder: nat, k: nat)
    requires Distinct(roster) && |roster| >= 2 && holder in roster && k <= |roster|
    ensures Visits(roster, Some(holder), k) == Ring(roster, IndexOf(roster, holder), k)
    decreases k
  {
    if k > 0 {
      var i := IndexOf(roster, holder);
      var j := Following(i, |roster|);
      VisitsFollowTheRing(roster, roster[j], k - 1);
      assert IndexOf(roster, roster[j]) == j;
      RingStep(roster, i, k);
    }
  }

  /** One lap of the ring holds what the roster holds. */
  lemma LapIsRoster(roster: seq<nat>, m: nat)
    requires 1 <= m <= |roster|
    ensures (roster + roster)[m..][..|roster|] == roster[m..] + roster[..m]
    ensures multiset(roster[m..] + roster[..m]) == multiset(roster)
    ensures (roster[m..] + roster[..m])[|roster| - 1] == roster[m - 1]
  {
    assert roster == roster[..m] + roster[m..];
  }

  /** n rotations over a fixed roster of n >= 2 visit each participant exactly once and
      return to the start. */
  lemma RotationsVisitEveryoneOnce(roster: seq<nat>, holder: nat)
    requires Distinct(roster) && |roster| >= 2 && holder in roster
    ensures multiset(Visits(roster, Some(holder), |roster|)) == multiset(roster)
    ensures Visits(roster, Some(holder), |roster|)[|roster| - 1] == holder
  {
    VisitsFollowTheRing(roster, holder, |roster|);
    LapIsRoster(roster, IndexOf(roster, holder) + 1);
  }
}
