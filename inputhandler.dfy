/**
 * InputHandler: the on/off state of each player's four control actions,
 * kept as one four-bit set per player index. The header declares the
 * table and its accessors; the accessors are taken to set and test one
 * bit of the player's set, a player without a set reading as all off.
 */
module Input {

  /** The control actions; IA_END_OF_ENUM = 4 sizes each player's bit set. */
  datatype InputAction = Left | Right | Up | Down

  const ActionCount: nat := 4

  /** The action's bit position: IA_LEFT = 0, IA_RIGHT, IA_UP, IA_DOWN. */
  function Bit(a: InputAction): (k: nat)
    ensures k < ActionCount
  {
    match a
    case Left => 0
    case Right => 1
    case Up => 2
    case Down => 3
  }

  type ActionSet = bv4

  /** The player's bit set, all off for a player not in the table. */
  function ActionsOf(hash: map<int, ActionSet>, player: int): ActionSet {
    if player in hash then hash[player] else 0
  }

  function Mask(a: InputAction): ActionSet {
    (1 as bv4) << Bit(a)
  }

  /** The state of one action of one player. */
  function Get(hash: map<int, ActionSet>, player: int, a: InputAction): bool {
    ActionsOf(hash, player) & Mask(a) != 0
  }

  /** The table after one action of one player is switched on or off. */
  function Set(hash: map<int, ActionSet>, player: int, a: InputAction, state: bool): (h: map<int, ActionSet>)
    ensures h.Keys == hash.Keys + {player}
  {
    var bits := ActionsOf(hash, player);
    hash[player := if state then bits | Mask(a) else bits & !Mask(a)]
  }

  /** Setting an action and reading it back gives the state that was set. */
  lemma GetAfterSet(hash: map<int, ActionSet>, player: int, a: InputAction, state: bool)
    ensures Get(Set(hash, player, a, state), player, a) == state
  {
    MaskShape(a);
  }

  /** Every mask has exactly its action's bit, and masks of different actions share none. */
  lemma MaskShape(a: InputAction)
    ensures Mask(a) != 0 && Mask(a) & Mask(a) == Mask(a)
    ensures forall b :: b != a ==> Mask(a) & Mask(b) == 0
  {
  }

  /** Setting one action leaves the player's other actions as they were. */
  lemma OtherActionsKept(hash: map<int, ActionSet>, player: int, a: InputAction, b: InputAction, state: bool)
    requires a != b
    ensures Get(Set(hash, player, a, state), player, b) == Get(hash, player, b)
  {
    MaskShape(a);
    MaskShape(b);
  }

  /** Setting an action of one player leaves every other player's actions as they were. */
  lemma OtherPlayersKept(hash: map<int, ActionSet>, player: int, other: int, a: InputAction, b: InputAction, state: bool)
    requires other != player
    ensures Get(Set(hash, player, a, state), other, b) == Get(hash, other, b)
  {
  }

  /** A player nobody has set reads as all off. */
  lemma UnsetPlayerIdle(player: int, a: InputAction)
    ensures !Get(map[], player, a)
  {
  }

  class InputHandler {
    var actionHash: map<int, ActionSet>

    constructor ()
      ensures actionHash == map[]
    {
      actionHash := map[];
    }

    method SetActionState(playerIndex: int, action: InputAction, state: bool)
      modifies this
      ensures actionHash == Set(old(actionHash), playerIndex, action, state)
      ensures GetActionState(playerIndex, action) == state
    {
      var bits := if playerIndex in actionHash then actionHash[playerIndex] else 0;
      if state {
        bits := bits | ((1 as bv4) << Bit(action));
      } else {
        bits := bits & !((1 as bv4) << Bit(action));
      }
      actionHash := actionHash[playerIndex := bits];
      GetAfterSet(old(actionHash), playerIndex, action, state);
    }

    function GetActionState(playerIndex: int, action: InputAction): (state: bool)
      reads this
      ensures state == Get(actionHash, playerIndex, action)
    {
      var bits := if playerIndex in actionHash then actionHash[playerIndex] else 0;
      bits & ((1 as bv4) << Bit(action)) != 0
    }
  }
}
