// Keyboard navigation in the universe list: a cursor that the arrow keys
// move with wrap-around, and that Enter turns into a selection request.

module UniverseNav {
  import opened UniverseCatalog

  datatype Key = ArrowDown | ArrowUp | Enter | OtherKey(name: string)

  /** What a key press asks of the selection: nothing, the universe with this id, or a read past the list. */
  datatype Outcome = NoSelection | SelectId(universeId: string) | MissingEntry

  /** The cursor after ArrowDown in a list of `n`: one further, or back to the top after the last entry. */
  function Down(i: int, n: int): int {
    if i < n - 1 then i + 1 else 0
  }

  /** The cursor after ArrowUp in a list of `n`: one back, or to the last entry from the top. */
  function Up(i: int, n: int): int {
    if i > 0 then i - 1 else n - 1
  }

  /** The cursor after a key press; only the arrows move it. */
  function Move(i: int, n: int, key: Key): int {
    match key
    case ArrowDown => Down(i, n)
    case ArrowUp => Up(i, n)
    case _ => i
  }

  /** What pressing `key` asks for, with the cursor at `i`. */
  function Request(available: seq<Universe>, i: int, key: Key): (r: Outcome)
    ensures key != Enter ==> r == NoSelection
    ensures key == Enter && 0 <= i < |available| ==> r == SelectId(available[i].id)
    ensures key == Enter && !(0 <= i < |available|) ==> r == MissingEntry
  {
    if key != Enter then NoSelection
    else if 0 <= i < |available| then SelectId(available[i].id)
    else MissingEntry
  }

  predicate InRange(i: int, n: int) {
    0 <= i < n
  }

  /** In a non-empty list, the arrows keep the cursor on an entry. */
  lemma MoveStaysInRange(i: int, n: int, key: Key)
    requires InRange(i, n)
    ensures InRange(Move(i, n, key), n)
  {
  }

  /** ArrowDown then ArrowUp returns to the entry the cursor started on, and so does ArrowUp then ArrowDown. */
  lemma DownUpRestores(i: int, n: int)
    requires InRange(i, n)
    ensures Up(Down(i, n), n) == i
    ensures Down(Up(i, n), n) == i
  {
  }

  /** The cursor after `k` presses of ArrowDown. */
  function Downs(i: int, n: int, k: nat): int {
    if k == 0 then i else Down(Downs(i, n, k - 1), n)
  }

  /** Pressing ArrowDown `a` then `b` times is pressing it `a + b` times. */
  lemma {:induction false} DownsCompose(i: int, n: int, a: nat, b: nat)
    ensures Downs(i, n, a + b) == Downs(Downs(i, n, a), n, b)
  {
    if b > 0 {
      DownsCompose(i, n, a, b - 1);
      assert Downs(i, n, a + b) == Down(Downs(i, n, a + b - 1), n);
    }
  }

  /** Short of the last entry, each ArrowDown moves one entry on. */
  lemma {:induction false} DownsClimb(i: int, n: int, k: nat)
    requires 0 <= i && i + k < n
    ensures Downs(i, n, k) == i + k
  {
    if k > 0 {
      DownsClimb(i, n, k - 1);
    }
  }

  /** `n` presses of ArrowDown bring the cursor back to where it started. */
  lemma FullCycleReturns(i: int, n: int)
    requires InRange(i, n)
    ensures Downs(i, n, n) == i
  {
    // Climb to the last entry, wrap to the top, then climb back to i.
    DownsCompose(i, n, n - 1 - i, i + 1);
    DownsClimb(i, n, n - 1 - i);
    DownsCompose(n - 1, n, 1, i);
    assert Downs(n - 1, n, 1) == 0;
    DownsClimb(0, n, i);
  }

  /** In an empty list, ArrowUp from the top leaves the cursor at -1, and ArrowDown puts it back at 0. */
  lemma EmptyListUpIsMinusOne(i: int)
    requires i <= 0
    ensures Up(i, 0) == -1
    ensures Down(Up(i, 0), 0) == 0
  {
  }

  /**
   * With the cursor on an entry whenever the list is non-empty, Enter asks
   * for a universe of the list, and reads past the list exactly when the list
   * is empty.
   */
  lemma EnterSelectsListed(available: seq<Universe>, i: int)
    requires |available| > 0 ==> InRange(i, |available|)
    ensures |available| > 0 ==> Request(available, i, Enter).SelectId? &&
                                 exists u :: u in available && u.id == Request(available, i, Enter).universeId
    ensures Request(available, i, Enter) == MissingEntry <==> available == []
  {
    if |available| > 0 {
      assert available[i] in available;
    }
  }

  /** The cursor after a sequence of key presses. */
  function Cursor(i: int, n: int, keys: seq<Key>): int
    decreases |keys|
  {
    if keys == [] then i else Cursor(Move(i, n, keys[0]), n, keys[1..])
  }

  /** In a non-empty list, no sequence of key presses moves the cursor off the list. */
  lemma {:induction false} CursorStaysInRange(i: int, n: int, keys: seq<Key>)
    requires InRange(i, n)
    ensures InRange(Cursor(i, n, keys), n)
    decreases |keys|
  {
    if keys != [] {
      MoveStaysInRange(i, n, keys[0]);
      CursorStaysInRange(Move(i, n, keys[0]), n, keys[1..]);
    }
  }

  /**
   * From the fresh cursor on the first entry of a non-empty list, Enter after
   * any sequence of key presses asks for the universe under the cursor.
   */
  lemma EnterAfterKeys(available: seq<Universe>, keys: seq<Key>)
    requires |available| > 0
    ensures var j := Cursor(0, |available|, keys);
            0 <= j < |available| && Request(available, j, Enter) == SelectId(available[j].id)
  {
    CursorStaysInRange(0, |available|, keys);
  }

  class Navigation {
    /** The universes listed, as the selection hook hands them over. */
    const availableUniverses: seq<Universe>
    var activeIndex: int

    /** A fresh cursor sits on the first entry. */
    constructor(availableUniverses: seq<Universe>)
      ensures this.availableUniverses == availableUniverses
      ensures activeIndex == 0
    {
      this.availableUniverses := availableUniverses;
      activeIndex := 0;
    }

    predicate Valid()
      reads this
    {
      |availableUniverses| > 0 ==> InRange(activeIndex, |availableUniverses|)
    }

    /**
     * handleKeyboardNavigation: the arrows move the cursor; Enter asks for the
     * universe under the cursor and leaves the cursor alone; other keys do nothing.
     */
    method HandleKey(key: Key) returns (outcome: Outcome)
      modifies this
      ensures activeIndex == Move(old(activeIndex), |availableUniverses|, key)
      ensures outcome == Request(availableUniverses, old(activeIndex), key)
      ensures old(Valid()) ==> Valid()
      ensures old(Valid()) && key == Enter ==> (outcome == MissingEntry <==> availableUniverses == [])
    {
      var n := |availableUniverses|;
      outcome := NoSelection;
      match key {
        case ArrowDown =>
          activeIndex := if activeIndex < n - 1 then activeIndex + 1 else 0;
        case ArrowUp =>
          activeIndex := if activeIndex > 0 then activeIndex - 1 else n - 1;
        case Enter =>
          if 0 <= activeIndex < n {
            outcome := SelectId(availableUniverses[activeIndex].id);
          } else {
            outcome := MissingEntry;
          }
        case OtherKey(_) =>
      }
      if old(Valid()) && n > 0 {
        MoveStaysInRange(old(activeIndex), n, key);
      }
      if old(Valid()) {
        EnterSelectsListed(availableUniverses, old(activeIndex));
      }
    }
  }
}
