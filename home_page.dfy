/**
 * The Home page's hero: the typing animation over a fixed list of four roles,
 * starting with the first.
 */
module HomePage {
  import opened Typing

  const HomeRoles := ["Full Stack Developer", "UI/UX Designer", "Tech Lead", "Problem Solver"]

  /** The first render: the first role, nothing typed yet, the interval set. */
  method Mount() returns (effect: TypingEffect)
    ensures fresh(effect) && effect.roles == HomeRoles && effect.Valid()
    ensures effect.currentRole == 0 && effect.typedText == "" && effect.currentIndex == 0 && effect.typing
  {
    effect := new TypingEffect(HomeRoles);
  }

  /** The roles appear in list order and the fifth round starts over with the first role. */
  lemma HomeRolesCycle(k: nat)
    ensures RoleAfter(0, 4) == 0 && RoleAfter(1, 4) == 1 && RoleAfter(2, 4) == 2 && RoleAfter(3, 4) == 3
    ensures RoleAfter(k + 4, 4) == RoleAfter(k, 4)
  {
    RoleAfterFirstRound(3, 4);
    RoleAfterIsPeriodic(k, 4);
  }
}
