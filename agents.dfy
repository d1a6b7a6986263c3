/** Tim's Love Letter agent: a deck counter, one belief vector per opponent, and the
    rules that pick an action from the agent's two cards. */
module Agents {
  import opened Wrappers
  import opened Cards
  import opened Counts
  import opened JavaInt

  /** `COUNTESS_FORCE_VAL`: a held card of higher value forces the Countess to be played. */
  const CountessForceVal: nat := 4

  /** What the agent can see of a round: the number of seats and its own seat. */
  datatype View = View(numPlayers: nat, playerIndex: nat)

  /** What `decideAction` does: return an action, return `null`, or throw the
      `ArithmeticException` of an integer division by zero. */
  datatype Decision = Play(action: Action) | Abstain | DivisionByZero

  // ---------------------------------------------------------------------------
  // Beliefs about one opponent
  // ---------------------------------------------------------------------------

  /** How many copies of each type the opponent at `playerIndex` could still hold. */
  class PlayerState {
    const potentialCardCount: array<int>
    const playerIndex: nat

    ghost predicate Valid()
      reads this, potentialCardCount
    {
      potentialCardCount.Length == 8 &&
      forall i :: 0 <= i < 8 ==> potentialCardCount[i] <= FromOrdinal(i).Count()
    }

    ghost function Counts(): seq<int>
      reads this, potentialCardCount
    {
      potentialCardCount[..]
    }

    /** Every type starts at its full copy count. */
    constructor (playerIndex: nat)
      ensures Valid() && fresh(potentialCardCount)
      ensures this.playerIndex == playerIndex
      ensures Counts() == InitialCounts()
    {
      this.playerIndex := playerIndex;
      var counts := new int[8];
      var i := 0;
      while i < counts.Length
        invariant 0 <= i <= 8
        invariant forall j :: 0 <= j < i ==> counts[j] == FromOrdinal(j).Count()
      {
        counts[i] := FromOrdinal(i).Count();
        i := i + 1;
      }
      potentialCardCount := counts;
    }

    /** One fewer copy of the played type; the count is not clamped at zero. */
    method Update(act: Action)
      requires Valid()
      modifies potentialCardCount
      ensures Valid()
      ensures Counts() == Decrement(old(Counts()), act.CardOf().Ordinal())
    {
      var k := act.CardOf().Ordinal();
      potentialCardCount[k] := potentialCardCount[k] - 1;
    }

    /** `getProb`: the count divided by 8 (the number of card types) in integer
        division. Since no count exceeds 5, it is never positive, and it is 0 unless
        the count has dropped to -8 or below. */
    function GetProb(c: Card): (p: int)
      reads this, potentialCardCount
      requires Valid()
      ensures p <= 0
      ensures p == 0 <==> potentialCardCount[c.Ordinal()] > -8
      ensures potentialCardCount[c.Ordinal()] <= 0 ==>
        potentialCardCount[c.Ordinal()] <= p * 8 < potentialCardCount[c.Ordinal()] + 8
    {
      var x := potentialCardCount[c.Ordinal()];
      DivZero(x, 8);
      Div(x, 8)
    }

    /** `getMostLikely`: scan the types in ordinal order and keep the last one whose
        ratio is at least the largest seen so far. */
    method GetMostLikely() returns (c: Card)
      requires Valid()
      ensures IsLastArgmax(Counts(), c.Ordinal())
    {
      // `None` plays the part of the initial `-Float.MAX_VALUE`, below every ratio.
      var maxProb: Option<int> := None;
      var maxProbIndex: nat := 0;
      var i := 0;
      while i < potentialCardCount.Length
        invariant 0 <= i <= 8
        invariant maxProb.None? <==> i == 0
        invariant i > 0 ==> maxProbIndex < i && maxProb == Some(Ratio(Counts(), maxProbIndex))
        invariant forall j :: 0 <= j < i ==> Ratio(Counts(), j) <= Ratio(Counts(), maxProbIndex)
        invariant forall j :: maxProbIndex < j < i ==> Ratio(Counts(), j) < Ratio(Counts(), maxProbIndex)
      {
        var prob := Div(potentialCardCount[i], FromOrdinal(i).Count());
        assert prob == Ratio(Counts(), i);
        if maxProb.None? || prob >= maxProb.value {
          maxProb := Some(prob);
          maxProbIndex := i;
        }
        i := i + 1;
      }
      c := FromOrdinal(maxProbIndex);
    }
  }

  /** A fresh opponent is believed to hold the Princess: every ratio is 1 and the tie
      goes to the last type. */
  method FreshMostLikely(playerIndex: nat) returns (c: Card)
    ensures c == PRINCESS
  {
    var opp := new PlayerState(playerIndex);
    c := opp.GetMostLikely();
    FreshLastArgmax(c.Ordinal());
  }

  // ---------------------------------------------------------------------------
  // Seats whose belief object is missing
  // ---------------------------------------------------------------------------

  /** The first seat from `from` on, other than `me`, that has no belief object:
      the seat at which `updatePlayerStates` dereferences `null`. */
  function FirstMissingFrom(seats: seq<PlayerState?>, me: nat, from: nat): (r: Option<nat>)
    requires from <= |seats|
    ensures r.Some? ==> from <= r.value < |seats| && r.value != me && seats[r.value] == null
    ensures forall i :: from <= i < |seats| && i != me && (r.None? || i < r.value) ==> seats[i] != null
    decreases |seats| - from
  {
    if from == |seats| then None
    else if from != me && seats[from] == null then Some(from)
    else FirstMissingFrom(seats, me, from + 1)
  }

  function FirstMissingSeat(seats: seq<PlayerState?>, me: nat): (r: Option<nat>)
    ensures r.Some? ==> r.value < |seats| && r.value != me && seats[r.value] == null
    ensures forall i :: 0 <= i < |seats| && i != me && (r.None? || i < r.value) ==> seats[i] != null
  {
    FirstMissingFrom(seats, me, 0)
  }

  /** Whether the seat loop got past seat `i` before stopping at a missing seat. */
  predicate Reached(npe: Option<nat>, i: nat) {
    npe.None? || i < npe.value
  }

  // ---------------------------------------------------------------------------
  // The agent
  // ---------------------------------------------------------------------------

  class TimsAgent {
    var current: View
    var myIndex: nat
    var cardCounts: array?<int>
    var playerStates: array?<PlayerState?>
    /** The cards of every action observed since the round began. */
    ghost var observed: seq<Card>
    ghost var Repr: set<object>

    /** The round state exists; the deck counter is the initial counts less the observed
        cards; every belief object is valid and owns its own array. */
    ghost predicate Valid()
      reads this, Repr
    {
      this in Repr && cardCounts != null && playerStates != null &&
      cardCounts in Repr && playerStates in Repr &&
      cardCounts.Length == 8 && playerStates.Length == current.numPlayers &&
      (forall i :: 0 <= i < playerStates.Length && playerStates[i] != null ==>
        playerStates[i] in Repr && playerStates[i].potentialCardCount in Repr &&
        playerStates[i].potentialCardCount != cardCounts && playerStates[i].Valid()) &&
      (forall i, j :: 0 <= i < j < playerStates.Length && playerStates[i] != null && playerStates[j] != null ==>
        playerStates[i].potentialCardCount != playerStates[j].potentialCardCount) &&
      cardCounts[..] == DeckAfter(observed)
    }

    /** The arrays of the belief objects that exist. */
    ghost function SeatArrays(): set<array<int>>
      reads this, playerStates
      requires playerStates != null
    {
      set i | 0 <= i < playerStates.Length && playerStates[i] != null :: playerStates[i].potentialCardCount
    }

    /** Every opponent's belief vector equals the deck counter. */
    ghost predicate BeliefsAgree()
      reads this, Repr
      requires Valid()
    {
      forall i :: 0 <= i < playerStates.Length && i != myIndex && playerStates[i] != null ==>
        playerStates[i].Counts() == cardCounts[..]
    }

    /** The agent before its first round: no round state yet. */
    constructor ()
      ensures cardCounts == null && playerStates == null
    {
      current := View(0, 0);
      myIndex := 0;
      cardCounts := null;
      playerStates := null;
      observed := [];
      Repr := {this};
    }

    /** `newRound` as written: the deck counter is reset to the copy counts and a seat
        array of the right length is allocated, but every seat is left `null`. */
    method NewRound(start: View)
      modifies this
      ensures Valid() && fresh(Repr - {this})
      ensures current == start && myIndex == start.playerIndex && observed == []
      ensures cardCounts[..] == InitialCounts()
      ensures playerStates.Length == start.numPlayers
      ensures forall i :: 0 <= i < playerStates.Length ==> playerStates[i] == null
    {
      var counts := new int[8];
      var i := 0;
      while i < counts.Length
        invariant 0 <= i <= 8
        invariant forall j :: 0 <= j < i ==> counts[j] == FromOrdinal(j).Count()
      {
        counts[i] := FromOrdinal(i).Count();
        i := i + 1;
      }
      current := start;
      myIndex := current.playerIndex;
      cardCounts := counts;
      playerStates := new PlayerState?[current.numPlayers](_ => null);
      observed := [];
      Repr := {this, cardCounts, playerStates};
    }

    /** `newRound` as evidently intended: as above, and a fresh belief object for every
        seat but the agent's own. */
    method NewRoundFilled(start: View)
      modifies this
      ensures Valid() && fresh(Repr - {this})
      ensures current == start && myIndex == start.playerIndex && observed == []
      ensures cardCounts[..] == InitialCounts()
      ensures playerStates.Length == start.numPlayers
      ensures forall i :: 0 <= i < playerStates.Length ==>
        (playerStates[i] == null <==> i == myIndex) &&
        (playerStates[i] != null ==> playerStates[i].playerIndex == i)
      ensures FirstMissingSeat(playerStates[..], myIndex) == None
      ensures BeliefsAgree()
    {
      NewRound(start);
      var i := 0;
      while i < playerStates.Length
        invariant Valid() && fresh(Repr - {this})
        invariant 0 <= i <= playerStates.Length
        invariant current == start && myIndex == start.playerIndex && observed == []
        invariant cardCounts[..] == InitialCounts()
        invariant playerStates.Length == start.numPlayers
        invariant forall j :: 0 <= j < playerStates.Length ==>
          (playerStates[j] == null <==> (j == myIndex || i <= j)) &&
          (playerStates[j] != null ==> playerStates[j].playerIndex == j && playerStates[j].Counts() == InitialCounts())
      {
        if i != myIndex {
          var ps := new PlayerState(i);
          playerStates[i] := ps;
          Repr := Repr + {ps, ps.potentialCardCount};
        }
        i := i + 1;
      }
      assert forall j :: 0 <= j < playerStates.Length && j != myIndex ==> playerStates[..][j] != null;
    }

    /** `updatePlayerStates`: every seat but the agent's own loses one copy of the played
        type. A seat without a belief object stops the loop with a NullPointerException,
        reported as that seat; the seats before it have been updated. */
    method UpdatePlayerStates(act: Action) returns (npe: Option<nat>)
      requires Valid()
      modifies SeatArrays()
      ensures Valid()
      ensures npe == FirstMissingSeat(playerStates[..], myIndex)
      ensures forall i :: 0 <= i < playerStates.Length && playerStates[i] != null ==>
        playerStates[i].Counts() ==
          if i != myIndex && Reached(npe, i)
          then Decrement(old(playerStates[i].Counts()), act.CardOf().Ordinal())
          else old(playerStates[i].Counts())
    {
      var k := act.CardOf().Ordinal();
      var i := 0;
      while i < current.numPlayers
        invariant 0 <= i <= playerStates.Length
        invariant Valid()
        invariant forall j :: 0 <= j < i && j != myIndex ==> playerStates[j] != null
        invariant forall j :: 0 <= j < playerStates.Length && playerStates[j] != null ==>
          playerStates[j].Counts() ==
            if j != myIndex && j < i then Decrement(old(playerStates[j].Counts()), k)
            else old(playerStates[j].Counts())
      {
        if i != myIndex {
          if playerStates[i] == null {
            npe := Some(i);
            return;
          }
          playerStates[i].Update(act);
        }
        i := i + 1;
      }
      npe := None;
    }

    /** `see`: the deck counter loses one copy of the played type (without clamping),
        then the belief objects are updated. */
    method See(act: Action, results: View) returns (npe: Option<nat>)
      requires Valid()
      requires results.numPlayers == current.numPlayers
      modifies this, cardCounts, SeatArrays()
      ensures Valid()
      ensures current == results && myIndex == old(myIndex)
      ensures cardCounts == old(cardCounts) && playerStates == old(playerStates) && Repr == old(Repr)
      ensures observed == old(observed) + [act.CardOf()]
      ensures cardCounts[..] == Decrement(old(cardCounts[..]), act.CardOf().Ordinal())
      ensures npe == FirstMissingSeat(playerStates[..], myIndex)
      ensures forall i :: 0 <= i < playerStates.Length && playerStates[i] != null ==>
        playerStates[i].Counts() ==
          if i != myIndex && Reached(npe, i)
          then Decrement(old(playerStates[i].Counts()), act.CardOf().Ordinal())
          else old(playerStates[i].Counts())
      ensures old(BeliefsAgree()) && npe.None? ==> BeliefsAgree()
    {
      current := results;
      var k := act.CardOf().Ordinal();
      ghost var before := cardCounts[..];
      cardCounts[k] := cardCounts[k] - 1;
      observed := observed + [act.CardOf()];
      assert observed[..|observed| - 1] == old(observed);
      assert cardCounts[..] == Decrement(before, k) == DeckAfter(observed);
      assert Valid();
      npe := UpdatePlayerStates(act);
    }

    /** `decideAction(Card, int, Card, Card)`: only a believed Princess yields an action.
        For a believed Countess the share of high cards left is computed and discarded;
        the division throws exactly when the deck counter sums to 0, that is, once
        sixteen actions have been observed. */
    method DecideAction(opp: Card, target: nat, hand: Card, dealt: Card) returns (d: Decision)
      requires Valid()
      ensures d == DivisionByZero <==> opp == COUNTESS && |observed| == 16
      ensures d.Play? <==> opp == PRINCESS && PrincessResponse(target, hand, dealt, myIndex).Some?
      ensures d.Play? ==> PrincessResponse(target, hand, dealt, myIndex) == Some(d.action)
    {
      match opp {
        case COUNTESS =>
          var lowCount := 0;
          var i := 0;
          while i < 4
            invariant 0 <= i <= 4
            invariant lowCount == Sum(cardCounts[..i])
          {
            assert cardCounts[..i + 1][..i] == cardCounts[..i];
            lowCount := lowCount + cardCounts[i];
            i := i + 1;
          }
          var highCount := 0;
          i := 4;
          while i < cardCounts.Length
            invariant 4 <= i <= 8
            invariant highCount == Sum(cardCounts[4..i])
          {
            assert cardCounts[4..i + 1][..i - 4] == cardCounts[4..i];
            highCount := highCount + cardCounts[i];
            i := i + 1;
          }
          assert cardCounts[..] == cardCounts[..4] + cardCounts[4..8];
          SumConcat(cardCounts[..4], cardCounts[4..8]);
          if highCount + lowCount == 0 {
            d := DivisionByZero;
          } else {
            var forcedChance := Div(highCount, highCount + lowCount);
            d := Abstain;
          }
        case PRINCESS =>
          var r := PrincessResponse(target, hand, dealt, myIndex);
          d := if r.Some? then Play(r.value) else Abstain;
        case _ =>
          d := Abstain;
      }
    }

    /** `decideAction(PlayerState, Card, Card)`: decide against the opponent's most likely card. */
    method DecideFor(opp: PlayerState, hand: Card, dealt: Card) returns (d: Decision)
      requires Valid() && opp.Valid()
      ensures d.Play? <==>
        (IsLastArgmax(opp.Counts(), PRINCESS.Ordinal()) &&
         PrincessResponse(opp.playerIndex, hand, dealt, myIndex).Some?)
      ensures d.Play? ==> PrincessResponse(opp.playerIndex, hand, dealt, myIndex) == Some(d.action)
      ensures d == DivisionByZero <==> IsLastArgmax(opp.Counts(), COUNTESS.Ordinal()) && |observed| == 16
    {
      var likely := opp.GetMostLikely();
      d := DecideAction(likely, opp.playerIndex, hand, dealt);
      if IsLastArgmax(opp.Counts(), PRINCESS.Ordinal()) {
        LastArgmaxUnique(opp.Counts(), likely.Ordinal(), PRINCESS.Ordinal());
      }
      if IsLastArgmax(opp.Counts(), COUNTESS.Ordinal()) {
        LastArgmaxUnique(opp.Counts(), likely.Ordinal(), COUNTESS.Ordinal());
      }
    }
  }

  // ---------------------------------------------------------------------------
  // Decision rules
  // ---------------------------------------------------------------------------

  /** `hasCard`: one of the two held cards is `c`. */
  predicate HasCard(c: Card, c1: Card, c2: Card): (r: bool)
    ensures r <==> c in {c1, c2}
  {
    c1 == c || c2 == c
  }

  lemma HasCardSymmetric(c: Card, c1: Card, c2: Card)
    ensures HasCard(c, c1, c2) == HasCard(c, c2, c1)
  {
  }

  /** The Princess branch of `decideAction`: take the Princess with the King if held,
      otherwise make the target discard it with the Prince if held. */
  function PrincessResponse(target: nat, hand: Card, dealt: Card, me: nat): (r: Option<Action>)
    ensures r.Some? <==> HasCard(KING, hand, dealt) || HasCard(PRINCE, hand, dealt)
    ensures r.Some? ==> r.value == KingAct(me, target) || r.value == PrinceAct(me, target)
    ensures r.Some? ==> HasCard(r.value.CardOf(), hand, dealt)
    ensures r == Some(PrinceAct(me, target)) ==> !HasCard(KING, hand, dealt)
  {
    if HasCard(KING, hand, dealt) then Some(KingAct(me, target))
    else if HasCard(PRINCE, hand, dealt) then Some(PrinceAct(me, target))
    else None
  }

  /** `playCard` as written, with `hand` the agent's own card and `me` its seat.
      Since the Countess's own value exceeds `COUNTESS_FORCE_VAL`, the Countess is played
      whenever it is held; the Handmaid otherwise; else `null`. */
  function PlayCard(dealt: Card, hand: Card, me: nat): (r: Option<Action>)
    ensures r == Some(CountessAct(me)) <==> HasCard(COUNTESS, dealt, hand)
    ensures r == Some(HandmaidAct(me)) <==> HasCard(HANDMAID, dealt, hand) && !HasCard(COUNTESS, dealt, hand)
    ensures r == None <==> !HasCard(COUNTESS, dealt, hand) && !HasCard(HANDMAID, dealt, hand)
  {
    if HasCard(COUNTESS, dealt, hand) && (dealt.Value() > CountessForceVal || hand.Value() > CountessForceVal)
    then Some(CountessAct(me))
    else if HasCard(HANDMAID, dealt, hand) then Some(HandmaidAct(me))
    else None
  }

  /** Holding the Countess with a Guard, the agent plays the Countess though no rule
      forces it; the corrected rule plays nothing. */
  lemma PlayCardCountessUnforced(me: nat)
    ensures PlayCard(COUNTESS, GUARD, me) == Some(CountessAct(me))
    ensures !HasCard(PRINCE, COUNTESS, GUARD) && !HasCard(KING, COUNTESS, GUARD)
    ensures PlayCardForced(COUNTESS, GUARD, me) == None
  {
  }

  /** The Countess is held beside the Prince, the King or the Princess. */
  predicate CountessForced(dealt: Card, hand: Card) {
    HasCard(COUNTESS, dealt, hand) &&
    (HasCard(PRINCE, dealt, hand) || HasCard(KING, dealt, hand) || HasCard(PRINCESS, dealt, hand))
  }

  /** The card held beside `c`. */
  function Partner(c: Card, dealt: Card, hand: Card): Card {
    if dealt == c then hand else dealt
  }

  /** `playCard` with the Countess test applied to the other card, as the priority
      "play the Countess if we have to" means: it is played exactly when it is held
      beside the Prince, the King or the Princess, that is, beside a card of value above
      `COUNTESS_FORCE_VAL`. */
  function PlayCardForced(dealt: Card, hand: Card, me: nat): (r: Option<Action>)
    ensures !(dealt == COUNTESS && hand == COUNTESS) ==>
      (r == Some(CountessAct(me)) <==> CountessForced(dealt, hand))
    ensures !(dealt == COUNTESS && hand == COUNTESS) ==>
      (r == Some(HandmaidAct(me)) <==> HasCard(HANDMAID, dealt, hand) && !CountessForced(dealt, hand))
    ensures !(dealt == COUNTESS && hand == COUNTESS) ==>
      (r == None <==> !CountessForced(dealt, hand) && !HasCard(HANDMAID, dealt, hand))
    ensures r.Some? ==> HasCard(r.value.CardOf(), dealt, hand) && r.value.actor == me
  {
    if HasCard(COUNTESS, dealt, hand) && Partner(COUNTESS, dealt, hand).Value() > CountessForceVal
    then Some(CountessAct(me))
    else if HasCard(HANDMAID, dealt, hand) then Some(HandmaidAct(me))
    else None
  }

  // ---------------------------------------------------------------------------
  // Round start followed by the first observed action
  // ---------------------------------------------------------------------------

  /** With `newRound` as written and at least two seats, the first observed action
      throws a NullPointerException at the first seat that is not the agent's. */
  method SeeAfterNewRound(start: View, act: Action) returns (npe: Option<nat>)
    requires start.numPlayers >= 2
    ensures npe == Some(if start.playerIndex == 0 then 1 else 0)
  {
    var agent := new TimsAgent();
    agent.NewRound(start);
    npe := agent.See(act, start);
    var seat := if start.playerIndex == 0 then 1 else 0;
    assert agent.playerStates[..][seat] == null;
    assert agent.playerStates[..][0] == null;
  }

  /** With every opponent's belief object created, the first observed action completes,
      every opponent now believes one fewer copy of the played type, and the beliefs
      still equal the deck counter. */
  method SeeAfterNewRoundFilled(start: View, act: Action) returns (npe: Option<nat>, likely: Card)
    requires start.numPlayers >= 2
    ensures npe == None
    ensures act.CardOf() != PRINCESS ==> likely == PRINCESS
  {
    var agent := new TimsAgent();
    agent.NewRoundFilled(start);
    npe := agent.See(act, start);
    var seat := if start.playerIndex == 0 then 1 else 0;
    var opp := agent.playerStates[seat];
    likely := opp.GetMostLikely();
    if act.CardOf() != PRINCESS {
      PrincessLastArgmax(opp.Counts(), likely.Ordinal());
    }
  }
}
