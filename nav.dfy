/**
 * Key events and the cursor arithmetic shared by the pages: saturating
 * `usize` scrolling and the wrap-around selection of a list entry.
 */
module Nav {
  import opened Wrappers

  /** The key codes the application distinguishes; every other code is `Other`. */
  datatype Key = Char(c: char) | Esc | Home | F(n: nat) | Up | Down | Enter | Tab | Other(code: nat)

  /** A terminal event: only a key press is handled, anything else is ignored. */
  datatype Event = KeyPress(key: Key) | KeyRelease(released: Key) | Resize

  /** The largest `usize` on a 64-bit target. */
  const USIZE_MAX: nat := 0xFFFF_FFFF_FFFF_FFFF

  /** `usize::saturating_add(1)`. */
  function SatInc(v: nat): (r: nat)
    ensures v < USIZE_MAX ==> r == v + 1
    ensures v >= USIZE_MAX ==> r == USIZE_MAX
  {
    if v >= USIZE_MAX then USIZE_MAX else v + 1
  }

  /** `usize::saturating_sub(1)`. */
  function SatDec(v: nat): (r: nat)
    ensures v == 0 ==> r == 0
    ensures v > 0 ==> r == v - 1
  {
    if v == 0 then 0 else v - 1
  }

  /** Scrolling down then up returns to the same line, below the `usize` ceiling. */
  lemma SatDecInc(v: nat)
    requires v < USIZE_MAX
    ensures SatDec(SatInc(v)) == v
  {
  }

  /** Down in a list of `len` entries: `(i + len).saturating_add(1) % len`. */
  function CycleDown(i: nat, len: nat): (r: nat)
    requires len > 0
    ensures r < len
  {
    SatInc(i + len) % len
  }

  /** Up in a list of `len` entries: `(i + len).saturating_sub(1) % len`. */
  function CycleUp(i: nat, len: nat): (r: nat)
    requires len > 0
    ensures r < len
  {
    SatDec(i + len) % len
  }

  /** Away from the `usize` ceiling, Down selects the next entry and wraps from the last to the first. */
  lemma CycleDownNext(i: nat, len: nat)
    requires 0 < len && i < len && i + len < USIZE_MAX
    ensures CycleDown(i, len) == if i == len - 1 then 0 else i + 1
  {
    if i == len - 1 {
      assert i + len + 1 == len * 2;
    } else {
      assert i + len + 1 == (i + 1) + len;
    }
  }

  /** Up selects the previous entry and wraps from the first to the last. */
  lemma CycleUpPrevious(i: nat, len: nat)
    requires 0 < len && i < len
    ensures CycleUp(i, len) == if i == 0 then len - 1 else i - 1
  {
    if i != 0 {
      assert i + len - 1 == (i - 1) + len;
    }
  }

  /** Down then Up gives back the selected entry. */
  lemma CycleUpDown(i: nat, len: nat)
    requires 0 < len && i < len && i + len < USIZE_MAX
    ensures CycleUp(CycleDown(i, len), len) == i
  {
    CycleDownNext(i, len);
    CycleUpPrevious(CycleDown(i, len), len);
  }
}
