/** The card types of Love Letter and the actions a player can take with them. */
module Cards {

  /** The eight card types in ascending value; the declaration order is the Java ordinal. */
  datatype Card = GUARD | PRIEST | BARON | HANDMAID | PRINCE | KING | COUNTESS | PRINCESS
  {
    /** `ordinal()` of the Java enum. */
    function Ordinal(): (o: nat)
      ensures o < 8
    {
      match this
      case GUARD => 0
      case PRIEST => 1
      case BARON => 2
      case HANDMAID => 3
      case PRINCE => 4
      case KING => 5
      case COUNTESS => 6
      case PRINCESS => 7
    }

    /** `value()`: the card's strength, 1 for the Guard up to 8 for the Princess. */
    function Value(): (v: nat)
      ensures v == Ordinal() + 1
    {
      match this
      case GUARD => 1
      case PRIEST => 2
      case BARON => 3
      case HANDMAID => 4
      case PRINCE => 5
      case KING => 6
      case COUNTESS => 7
      case PRINCESS => 8
    }

    /** `count()`: the number of copies in the deck. */
    function Count(): (n: nat)
      ensures n == TotalCardCounts()[Ordinal()]
    {
      match this
      case GUARD => 5
      case PRIEST => 2
      case BARON => 2
      case HANDMAID => 2
      case PRINCE => 2
      case KING => 1
      case COUNTESS => 1
      case PRINCESS => 1
    }
  }

  /** The copy counts of the eight types in ordinal order. */
  function TotalCardCounts(): seq<nat> {
    [5, 2, 2, 2, 2, 1, 1, 1]
  }

  /** `Card.values()[i]`: the card type with ordinal `i`. */
  function FromOrdinal(i: nat): (c: Card)
    requires i < 8
    ensures c.Ordinal() == i
  {
    [GUARD, PRIEST, BARON, HANDMAID, PRINCE, KING, COUNTESS, PRINCESS][i]
  }

  lemma OrdinalRoundTrip(c: Card)
    ensures FromOrdinal(c.Ordinal()) == c
  {
  }

  /** An action: the acting seat, the targeted seat where the card has one, and the
      Guard's guess. */
  datatype Action =
    | GuardAct(actor: nat, target: nat, guess: Card)
    | PriestAct(actor: nat, target: nat)
    | BaronAct(actor: nat, target: nat)
    | HandmaidAct(actor: nat)
    | PrinceAct(actor: nat, target: nat)
    | KingAct(actor: nat, target: nat)
    | CountessAct(actor: nat)
    | PrincessAct(actor: nat)
  {
    /** `card()`: the card type the action plays. */
    function CardOf(): (c: Card)
      ensures c == GUARD <==> GuardAct?
      ensures c == PRINCE <==> PrinceAct?
      ensures c == KING <==> KingAct?
      ensures c == COUNTESS <==> CountessAct?
      ensures c == HANDMAID <==> HandmaidAct?
    {
      match this
      case GuardAct(_, _, _) => GUARD
      case PriestAct(_, _) => PRIEST
      case BaronAct(_, _) => BARON
      case HandmaidAct(_) => HANDMAID
      case PrinceAct(_, _) => PRINCE
      case KingAct(_, _) => KING
      case CountessAct(_) => COUNTESS
      case PrincessAct(_) => PRINCESS
    }
  }
}
