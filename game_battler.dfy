/**
 * The battler as the library sees it: its side (actor or enemy) and the data
 * objects whose notes carry tags, and the side relation `isFriendWith` /
 * `isEnemyWith` of the battler handler.
 */
module GameBattler {
  import opened JsValues

  /**
   * A battler: whether it is an actor, its states, its equips (actors only),
   * its current class (actors only) and its own data object (`actor()` or
   * `enemy()`). Unequipped slots and missing objects are falsy values.
   */
  datatype Battler = Battler(
    isActor: bool,
    states: seq<Value>,
    equips: seq<Value>,
    currentClass: Value,
    data: Value)

  /** `isFriendWith`: both actors or both enemies. */
  function IsFriendWith(battler: Battler, other: Battler): (r: bool)
    ensures r <==> battler.isActor == other.isActor
  {
    (battler.isActor && other.isActor) || (!battler.isActor && !other.isActor)
  }

  /** `isEnemyWith`: the negation of `isFriendWith`. */
  function IsEnemyWith(battler: Battler, other: Battler): (r: bool)
    ensures r <==> battler.isActor != other.isActor
  {
    !IsFriendWith(battler, other)
  }

  /** Friendship is an equivalence: reflexive, symmetric and transitive. */
  lemma FriendshipIsEquivalence(a: Battler, b: Battler, c: Battler)
    ensures IsFriendWith(a, a)
    ensures IsFriendWith(a, b) ==> IsFriendWith(b, a)
    ensures IsFriendWith(a, b) && IsFriendWith(b, c) ==> IsFriendWith(a, c)
  {
  }

  /** Enmity is irreflexive and symmetric, and the enemy of an enemy is a friend. */
  lemma EnmityProperties(a: Battler, b: Battler, c: Battler)
    ensures !IsEnemyWith(a, a)
    ensures IsEnemyWith(a, b) ==> IsEnemyWith(b, a)
    ensures IsEnemyWith(a, b) && IsEnemyWith(b, c) ==> IsFriendWith(a, c)
  {
  }
}
