/**
 * The typing animation of the landing pages. Every 100 ms tick shows one more
 * character of the current role, from the empty prefix up to the whole role;
 * the tick after that stops the interval, and two seconds later the next role
 * (cyclically) is chosen, which re-runs the effect from index 0.
 */
module Typing {

  /** `(prev + 1) % roles.length`. */
  function NextRole(current: nat, count: nat): (r: nat)
    requires count > 0
    ensures r < count
    ensures current + 1 < count ==> r == current + 1
    ensures current + 1 == count ==> r == 0
  {
    (current + 1) % count
  }

  /** The role index after `k` pauses, starting from role 0. */
  function RoleAfter(k: nat, count: nat): (r: nat)
    requires count > 0
    ensures r < count
  {
    if k == 0 then 0 else NextRole(RoleAfter(k - 1, count), count)
  }

  /** With two or more roles the pause always selects a different role. */
  lemma NextRoleMoves(current: nat, count: nat)
    requires current < count && count >= 2
    ensures NextRole(current, count) != current
  {
  }

  /** During the first round the k-th pause selects role k. */
  lemma {:induction false} RoleAfterFirstRound(k: nat, count: nat)
    requires 0 < count && k < count
    ensures RoleAfter(k, count) == k
  {
    if k > 0 {
      RoleAfterFirstRound(k - 1, count);
    }
  }

  /** After as many pauses as there are roles the rotation is back where it was: the roles cycle in order. */
  lemma {:induction false} RoleAfterIsPeriodic(k: nat, count: nat)
    requires count > 0
    ensures RoleAfter(k + count, count) == RoleAfter(k, count)
  {
    if k == 0 {
      RoleAfterFirstRound(count - 1, count);
    } else {
      RoleAfterIsPeriodic(k - 1, count);
    }
  }

  /** What the screen shows, tick after tick, while one role is typed: its prefixes of length 0 to |role|. */
  function TypedFrames(role: string): (frames: seq<string>)
    ensures |frames| == |role| + 1
    ensures forall k :: 0 <= k < |frames| ==> |frames[k]| == k && frames[k] == role[..k]
  {
    seq(|role| + 1, k requires 0 <= k <= |role| => role[..k])
  }

  class TypingEffect {
    const roles: seq<string>
    var typedText: string
    var currentRole: nat
    var currentIndex: nat
    /** Whether the interval of the current effect run is still set. */
    var typing: bool

    function Role(): string
      reads this
      requires currentRole < |roles|
    {
      roles[currentRole]
    }

    ghost predicate Valid()
      reads this
    {
      |roles| > 0 && currentRole < |roles|
      && currentIndex <= |Role()| + 1
      && (currentIndex >= 1 ==> typedText == Role()[..currentIndex - 1])
      && (!typing ==> currentIndex == |Role()| + 1)
    }

    /** First render: empty text, role 0, and the effect's interval just set. */
    constructor (roles: seq<string>)
      requires |roles| > 0
      ensures this.roles == roles && Valid()
      ensures typedText == "" && currentRole == 0 && currentIndex == 0 && typing
    {
      this.roles := roles;
      typedText := "";
      currentRole := 0;
      currentIndex := 0;
      typing := true;
    }

    /** One run of the interval callback. */
    method Tick()
      requires Valid() && typing
      modifies this`typedText, this`currentIndex, this`typing
      ensures Valid() && currentRole == old(currentRole)
      ensures old(currentIndex) <= |Role()| ==>
        typedText == Role()[..old(currentIndex)] && currentIndex == old(currentIndex) + 1 && typing
      ensures old(currentIndex) > |Role()| ==>
        typedText == old(typedText) && currentIndex == old(currentIndex) && !typing
    {
      if currentIndex <= |roles[currentRole]| {
        typedText := roles[currentRole][..currentIndex];
        currentIndex := currentIndex + 1;
      } else {
        typing := false;
      }
    }

    /**
     * The timeout after the interval stops: the next role is chosen. The effect
     * depends on `currentRole`, so it only runs again when the index changed,
     * which a single role never does.
     */
    method Advance()
      requires Valid() && !typing
      modifies this`currentRole, this`currentIndex, this`typing
      ensures Valid()
      ensures currentRole == NextRole(old(currentRole), |roles|)
      ensures typing <==> currentRole != old(currentRole)
      ensures typing ==> currentIndex == 0
      ensures !typing ==> currentIndex == old(currentIndex)
    {
      var next := (currentRole + 1) % |roles|;
      if next != currentRole {
        currentRole := next;
        currentIndex := 0;
        typing := true;
      }
    }

    /** The interval runs until it clears itself; the frames shown are the role's prefixes, shortest first. */
    method TypeRole() returns (frames: seq<string>)
      requires Valid() && typing && currentIndex == 0
      modifies this`typedText, this`currentIndex, this`typing
      ensures Valid() && !typing && currentRole == old(currentRole)
      ensures frames == TypedFrames(Role()) && typedText == Role()
    {
      frames := [];
      while typing
        invariant Valid() && currentRole == old(currentRole)
        invariant typing ==> |frames| == currentIndex
        invariant !typing ==> |frames| == |Role()| + 1
        invariant forall k :: 0 <= k < |frames| ==> frames[k] == Role()[..k]
        decreases |Role()| + 2 - currentIndex, typing
      {
        Tick();
        if typing {
          frames := frames + [typedText];
        }
      }
      assert typedText == Role()[..|Role()|];
    }

    /**
     * `rounds` whole rounds of the animation from the first render: each role
     * is typed out in full, then the pause selects the next one. `shown`
     * lists the role completed in each round.
     */
    method Play(rounds: nat) returns (shown: seq<string>)
      requires Valid() && typing && currentIndex == 0 && currentRole == 0 && |roles| >= 2
      modifies this`typedText, this`currentIndex, this`typing, this`currentRole
      ensures |shown| == rounds
      ensures forall j :: 0 <= j < rounds ==> shown[j] == roles[RoleAfter(j, |roles|)]
      ensures Valid() && typing && currentIndex == 0 && currentRole == RoleAfter(rounds, |roles|)
    {
      shown := [];
      var j := 0;
      while j < rounds
        invariant 0 <= j <= rounds && |shown| == j
        invariant Valid() && typing && currentIndex == 0 && currentRole == RoleAfter(j, |roles|)
        invariant forall i {:trigger shown[i]} :: 0 <= i < j ==> shown[i] == roles[RoleAfter(i, |roles|)]
      {
        var frames := TypeRole();
        shown := shown + [typedText];
        NextRoleMoves(currentRole, |roles|);
        Advance();
        j := j + 1;
      }
    }
  }
}
