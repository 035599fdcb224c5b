/**
 * The per-roll scoring rule of a round (the body of the roll interval in
 * server.js) and the sequence of rolls one round makes before its first bust.
 */
module Scoring {
  import opened Wrappers

  /** One die face. The server draws it with Math.random; here it is an input. */
  type Die = d: int | 1 <= d <= 6 witness 1

  /** Rolls 1..EarlyRolls of a round are the early phase. */
  const EarlyRolls := 3
  /** What a 7 adds in the early phase. */
  const EarlySevenBonus := 70

  /** The message attached to a roll event (null in the source when absent). */
  datatype Note =
    | EarlySeven              // "Early 7! +70 added."
    | EarlyDouble(added: int) // "Early double! +<d1> added."
    | Busted                  // "Rolled a 7. Round total lost!"
    | Doubled(pot: int)       // "Doubles! Round total doubled to <pot>"

  /** The new pot, the message, and whether the roll ended the round. */
  datatype Outcome = Outcome(pot: int, note: Option<Note>, bust: bool)

  /**
   * Scores roll number `rollCount` (already incremented, so the first roll
   * of a round is 1) with dice `d1`, `d2` against the round pot `pot`.
   */
  function Score(rollCount: nat, pot: int, d1: Die, d2: Die): (r: Outcome)
    // a roll ends the round exactly when it is a 7 after the early phase
    ensures r.bust <==> rollCount > EarlyRolls && d1 + d2 == 7
    ensures r.bust ==> r.pot == 0
    // the pot never goes negative, and only a bust makes it smaller
    ensures pot >= 0 ==> r.pot >= 0
    ensures pot >= 0 && !r.bust ==> r.pot >= pot
    // every early roll strictly grows the pot
    ensures rollCount <= EarlyRolls ==> r.pot > pot
  {
    var sum := d1 + d2;
    if rollCount <= EarlyRolls then
      if sum == 7 then Outcome(pot + EarlySevenBonus, Some(EarlySeven), false)
      else if d1 == d2 then Outcome(pot + d1, Some(EarlyDouble(d1)), false)
      else Outcome(pot + sum, None, false)
    else
      if sum == 7 then Outcome(0, Some(Busted), true)
      else if d1 == d2 then Outcome(pot * 2, Some(Doubled(pot * 2)), false)
      else Outcome(pot + sum, None, false)
  }

  /** Early phase: a 7 adds the bonus of 70, a double one face (less than its sum), anything else its sum. */
  lemma EarlyPhaseGain(rollCount: nat, pot: int, d1: Die, d2: Die)
    requires rollCount <= EarlyRolls
    ensures var r := Score(rollCount, pot, d1, d2);
      && !r.bust
      && (d1 + d2 == 7 ==> r.pot == pot + EarlySevenBonus)
      && (d1 == d2 ==> r.pot == pot + d1 && r.pot < pot + d1 + d2)
      && (d1 + d2 != 7 && d1 != d2 ==> r.pot == pot + d1 + d2)
  {
  }

  /** Late phase: a 7 wipes the pot, a double doubles it, anything else adds its sum. */
  lemma LatePhaseGain(rollCount: nat, pot: int, d1: Die, d2: Die)
    requires rollCount > EarlyRolls
    ensures var r := Score(rollCount, pot, d1, d2);
      && (d1 + d2 == 7 ==> r.bust && r.pot == 0)
      && (d1 == d2 ==> !r.bust && r.pot == 2 * pot)
      && (d1 + d2 != 7 && d1 != d2 ==> !r.bust && r.pot == pot + d1 + d2)
  {
  }

  /** The rule does not depend on which die is the first one. */
  lemma ScoreIgnoresDiceOrder(rollCount: nat, pot: int, d1: Die, d2: Die)
    ensures Score(rollCount, pot, d1, d2) == Score(rollCount, pot, d2, d1)
  {
  }

  datatype Roll = Roll(d1: Die, d2: Die)

  /** Where a round stands after its interval has fired: pot, rolls made, and whether it busted. */
  datatype RoundRun = RoundRun(pot: int, rolls: nat, busted: bool)

  /**
   * The interval firing `rolls` in order in a round that has already made
   * `count` rolls with pot `pot`. A bust clears the interval, so the rolls
   * after it are never made.
   */
  function Play(count: nat, pot: int, rolls: seq<Roll>): RoundRun
    decreases |rolls|
  {
    if rolls == [] then RoundRun(pot, count, false)
    else
      var o := Score(count + 1, pot, rolls[0].d1, rolls[0].d2);
      if o.bust then RoundRun(o.pot, count + 1, true)
      else Play(count + 1, o.pot, rolls[1..])
  }

  /** Roll number `n` of a round, with dice `r`, is a bust. */
  predicate IsBust(n: nat, r: Roll) {
    n > EarlyRolls && r.d1 + r.d2 == 7
  }

  /**
   * A round ends at its first 7 after the early phase, with an empty pot
   * and with no roll made after it; without such a 7 every roll is made
   * and the pot never drops below where it started.
   */
  lemma {:induction false} PlayStopsAtFirstLateSeven(count: nat, pot: int, rolls: seq<Roll>)
    ensures var r := Play(count, pot, rolls);
      && (r.busted <==> exists i :: 0 <= i < |rolls| && IsBust(count + i + 1, rolls[i]))
      && (r.busted ==>
            && r.pot == 0
            && exists i :: 0 <= i < |rolls| && IsBust(count + i + 1, rolls[i]) && r.rolls == count + i + 1 &&
                 forall j :: 0 <= j < i ==> !IsBust(count + j + 1, rolls[j]))
      && (!r.busted ==> r.rolls == count + |rolls| && (pot >= 0 ==> r.pot >= pot))
    decreases |rolls|
  {
    if rolls != [] {
      var o := Score(count + 1, pot, rolls[0].d1, rolls[0].d2);
      if o.bust {
        assert IsBust(count + 0 + 1, rolls[0]);
      } else {
        var rest := rolls[1..];
        PlayStopsAtFirstLateSeven(count + 1, o.pot, rest);
        var r := Play(count + 1, o.pot, rest);
        if r.busted {
          var i :| 0 <= i < |rest| && IsBust(count + 1 + i + 1, rest[i]) && r.rolls == count + 1 + i + 1 &&
                   forall j :: 0 <= j < i ==> !IsBust(count + 1 + j + 1, rest[j]);
          assert rest[i] == rolls[i + 1];
          forall j | 0 <= j < i + 1 ensures !IsBust(count + j + 1, rolls[j]) {
            if j > 0 { assert rolls[j] == rest[j - 1]; }
          }
        } else {
          forall i | 0 <= i < |rolls| ensures !IsBust(count + i + 1, rolls[i]) {
            if i > 0 { assert rolls[i] == rest[i - 1]; }
          }
        }
      }
    }
  }

  /** The first three rolls of a fresh round never bust. */
  lemma {:induction false} EarlyPhaseNeverBusts(rolls: seq<Roll>)
    requires |rolls| <= EarlyRolls
    ensures var r := Play(0, 0, rolls); !r.busted && r.rolls == |rolls| && r.pot >= |rolls|
  {
    EarlyPot(0, 0, rolls);
  }

  lemma {:induction false} EarlyPot(count: nat, pot: int, rolls: seq<Roll>)
    requires count + |rolls| <= EarlyRolls
    ensures var r := Play(count, pot, rolls); !r.busted && r.rolls == count + |rolls| && r.pot >= pot + |rolls|
    decreases |rolls|
  {
    if rolls != [] {
      var o := Score(count + 1, pot, rolls[0].d1, rolls[0].d2);
      EarlyPot(count + 1, o.pot, rolls[1..]);
    }
  }

  /**
   * The four rolls (3,4), (2,5), (6,1), (4,4) from a fresh round: three
   * early sevens worth 70 each, then a late double.
   */
  lemma ThreeEarlySevensThenDouble()
    ensures Play(0, 0, [Roll(3, 4), Roll(2, 5), Roll(6, 1), Roll(4, 4)]) == RoundRun(420, 4, false)
  {
  }
}
