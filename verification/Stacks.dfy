// What is known of a stack after some of its pieces moved
// (src/game/game.cpp:1836-1842, 1873-1879).
module Stacks {

  /** The count of the item that is handed back: of the pieces that joined no stack, or, when all have joined one,
      of the item itself, which keeps its count when it went whole. */
  function Handed(count: nat, moved: nat, merged: nat): int {
    if moved > merged then moved - merged else if moved == count then count else count - moved
  }

  /** What is handed back: the pieces that joined no stack; else what stayed behind; else all of the item. */
  lemma HandedPieces(count: nat, moved: nat, merged: nat)
    requires merged <= moved <= count
    ensures moved > merged ==> Handed(count, moved, merged) + merged == moved
    ensures moved == merged && moved < count ==> Handed(count, moved, merged) + moved == count
    ensures moved == merged && moved == count ==> Handed(count, moved, merged) == count
  {
  }
}
