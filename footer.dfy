/** The footer's typewriter: a state machine over the role being shown,
    the text typed so far and the typing/deleting direction, advanced one
    step per timer tick. The tick delays are not modelled. */
module Footer {
  const Roles: seq<string> := ["Fullstack Developer", "Software Engineer", "UI UX Developer"]

  datatype Typewriter = Typewriter(roleIndex: int, displayText: string, isDeleting: bool)

  /** The states the footer can reach: a role index in range and a text
      that is a prefix of that role. */
  predicate Valid(t: Typewriter) {
    0 <= t.roleIndex < |Roles| && t.displayText <= Roles[t.roleIndex]
  }

  /** `s.substring(0, n)` for `n >= 0`: clipped to the length of `s`. */
  function Substring(s: string, n: nat): (r: string)
    ensures r <= s
    ensures |r| == if n <= |s| then n else |s|
  {
    if n <= |s| then s[..n] else s
  }

  /** What one tick does: the next state, and whether it schedules the
      deferred switch to deleting. */
  datatype Tick = Tick(next: Typewriter, schedulesDelete: bool)

  /** The timer callback of the effect, given the state it closed over. */
  function Step(t: Typewriter): (r: Tick)
    requires 0 <= t.roleIndex < |Roles|
    ensures 0 <= r.next.roleIndex < |Roles|
  {
    var currentRole := Roles[t.roleIndex];
    if !t.isDeleting then
      if |t.displayText| < |currentRole| then
        Tick(t.(displayText := Substring(currentRole, |t.displayText| + 1)), false)
      else
        Tick(t, true)
    else if |t.displayText| > 0 then
      Tick(t.(displayText := Substring(currentRole, |t.displayText| - 1)), false)
    else
      Tick(t.(isDeleting := false, roleIndex := (t.roleIndex + 1) % |Roles|), false)
  }

  /** The deferred `setIsDeleting(true)` once the pause is over. */
  function PauseOver(t: Typewriter): (r: Typewriter)
    ensures r.isDeleting && r.roleIndex == t.roleIndex && r.displayText == t.displayText
  {
    t.(isDeleting := true)
  }

  /** Every tick, and the end of the pause, keep the state valid. */
  lemma StepKeepsValid(t: Typewriter)
    requires Valid(t)
    ensures Valid(Step(t).next)
    ensures Valid(PauseOver(t))
  {
  }

  /** Typing short of the full role appends the role's next character. */
  lemma TypingAppends(t: Typewriter)
    requires Valid(t) && !t.isDeleting && |t.displayText| < |Roles[t.roleIndex]|
    ensures Step(t).next.displayText == t.displayText + [Roles[t.roleIndex][|t.displayText|]]
    ensures Step(t).next.roleIndex == t.roleIndex && !Step(t).next.isDeleting
    ensures !Step(t).schedulesDelete
  {
    var role := Roles[t.roleIndex];
    assert role[..|t.displayText|] == t.displayText;
    assert role[..|t.displayText| + 1] == role[..|t.displayText|] + [role[|t.displayText|]];
  }

  /** Deleting a non-empty text drops its last character. */
  lemma DeletingDropsLast(t: Typewriter)
    requires Valid(t) && t.isDeleting && |t.displayText| > 0
    ensures Step(t).next.displayText == t.displayText[..|t.displayText| - 1]
    ensures Step(t).next.roleIndex == t.roleIndex && Step(t).next.isDeleting
    ensures !Step(t).schedulesDelete
  {
    var role := Roles[t.roleIndex];
    assert role[..|t.displayText|] == t.displayText;
  }

  /** Deleting the empty text moves on to the next role, wrapping after the
      last, and starts typing. */
  lemma EmptyTextAdvancesRole(t: Typewriter)
    requires t.isDeleting && t.displayText == [] && 0 <= t.roleIndex < |Roles|
    ensures Step(t).next == Typewriter(if t.roleIndex == |Roles| - 1 then 0 else t.roleIndex + 1, "", false)
  {
  }

  /** With the whole role typed, a tick changes nothing and only schedules
      the switch to deleting. */
  lemma FullTextOnlySchedules(t: Typewriter)
    requires Valid(t) && !t.isDeleting && |t.displayText| >= |Roles[t.roleIndex]|
    ensures Step(t).next == t && Step(t).schedulesDelete
    ensures t.displayText == Roles[t.roleIndex]
  {
  }

  /** `n` ticks in a row. */
  function Run(t: Typewriter, n: nat): (r: Typewriter)
    requires 0 <= t.roleIndex < |Roles|
    ensures 0 <= r.roleIndex < |Roles|
    decreases n
  {
    if n == 0 then t else Run(Step(t).next, n - 1)
  }

  /** From any typed prefix, the remaining ticks type out the whole role. */
  lemma {:induction false} TypesOut(t: Typewriter)
    requires Valid(t) && !t.isDeleting
    ensures Run(t, |Roles[t.roleIndex]| - |t.displayText|) == t.(displayText := Roles[t.roleIndex])
    decreases |Roles[t.roleIndex]| - |t.displayText|
  {
    var role := Roles[t.roleIndex];
    if |t.displayText| < |role| {
      TypingAppends(t);
      var u := Step(t).next;
      assert role[..|t.displayText|] == t.displayText;
      assert u.displayText == role[..|t.displayText| + 1];
      TypesOut(u);
    } else {
      assert t.displayText == role;
    }
  }

  /** From any prefix, deleting takes one tick per character and one more
      to move on to the next role. */
  lemma {:induction false} DeletesOut(t: Typewriter)
    requires Valid(t) && t.isDeleting
    ensures Run(t, |t.displayText| + 1) == Typewriter((t.roleIndex + 1) % |Roles|, "", false)
    decreases |t.displayText|
  {
    if |t.displayText| > 0 {
      DeletingDropsLast(t);
      var u := Step(t).next;
      assert u.displayText <= Roles[t.roleIndex];
      DeletesOut(u);
    }
  }

  /** A whole cycle: from an empty text, |role| ticks type the role, the
      pause switches to deleting, and |role| + 1 ticks bring the next role
      with an empty text. */
  lemma FullCycle(i: int)
    requires 0 <= i < |Roles|
    ensures Run(Typewriter(i, "", false), |Roles[i]|) == Typewriter(i, Roles[i], false)
    ensures Run(PauseOver(Typewriter(i, Roles[i], false)), |Roles[i]| + 1) == Typewriter((i + 1) % |Roles|, "", false)
  {
    TypesOut(Typewriter(i, "", false));
    DeletesOut(Typewriter(i, Roles[i], true));
  }

  /** The component's state, updated in place by each tick. */
  class TypewriterFooter {
    var roleIndex: int
    var displayText: string
    var isDeleting: bool

    function State(): Typewriter
      reads this
    {
      Typewriter(roleIndex, displayText, isDeleting)
    }

    /** The first render: role 0, nothing typed, typing. */
    constructor ()
      ensures State() == Typewriter(0, "", false) && Valid(State())
    {
      roleIndex := 0;
      displayText := "";
      isDeleting := false;
    }

    /** One firing of the effect's timeout. Returns whether the deferred
        switch to deleting was scheduled. */
    method OnTimeout() returns (schedulesDelete: bool)
      requires 0 <= roleIndex < |Roles|
      modifies this
      ensures State() == Step(old(State())).next
      ensures schedulesDelete == Step(old(State())).schedulesDelete
      ensures old(Valid(State())) ==> Valid(State())
    {
      if Valid(State()) {
        StepKeepsValid(State());
      }
      var currentRole := Roles[roleIndex];
      schedulesDelete := false;
      if !isDeleting {
        if |displayText| < |currentRole| {
          displayText := Substring(currentRole, |displayText| + 1);
        } else {
          schedulesDelete := true;
        }
      } else {
        if |displayText| > 0 {
          displayText := Substring(currentRole, |displayText| - 1);
        } else {
          isDeleting := false;
          roleIndex := (roleIndex + 1) % |Roles|;
        }
      }
    }

    /** The deferred callback scheduled by a full-text tick. */
    method OnPauseOver()
      modifies this
      ensures State() == PauseOver(old(State()))
      ensures old(Valid(State())) ==> Valid(State())
    {
      isDeleting := true;
    }
  }
}
