/**
 * The keyboard-wedge barcode scanner hook
 * (frontend/src/hooks/useBarcodeScanner.js): a scanner "types" a code fast
 * and ends it with Enter, so single-character keys that arrive within
 * `timeThreshold` milliseconds of each other are gathered in a buffer, and
 * Enter hands the buffer to `onScan` once it holds at least `minLength`
 * characters.
 *
 * `Date.now()` is the `now` parameter of each key press; the call to
 * `onScan` is the method's `scan` result and `e.preventDefault()` its
 * `prevented` result.
 */
module Barcode {
  import opened Common

  /** One `keydown`: the event's `key` and the clock reading when it arrived. */
  datatype KeyEvent = KeyEvent(key: string, time: int)

  /**
   * The keys that end a scan or are gathered: Enter and keys of at most one
   * UTF-16 code unit (`char.length > 1` is measured in code units).
   */
  predicate Handled(key: string) { Utf16Length(key) <= 1 || key == "Enter" }

  predicate IsEnter(e: KeyEvent) { e.key == "Enter" }

  /** The gathered keys one after another. */
  function Concat(keys: seq<string>): string
  {
    if keys == [] then "" else Concat(keys[..|keys| - 1]) + keys[|keys| - 1]
  }

  class BarcodeScanner {
    const minLength: nat
    const timeThreshold: int
    var buffer: string
    var lastKeyTime: int
    /** The keys appended since the buffer was last emptied. */
    ghost var gathered: seq<string>

    /** The buffer is exactly the gathered keys, each a single code unit at most. */
    ghost predicate Valid()
      reads this
    {
      buffer == Concat(gathered) && forall i :: 0 <= i < |gathered| ==> Utf16Length(gathered[i]) <= 1
    }

    /** The buffer a key arriving at `now` works on: emptied after too long a pause. */
    function BufferAt(now: int): string
      reads this
    {
      if now - lastKeyTime > timeThreshold then "" else buffer
    }

    ghost function GatheredAt(now: int): seq<string>
      reads this
    {
      if now - lastKeyTime > timeThreshold then [] else gathered
    }

    /** The hook mounted at time `now` with its options (3 and 100 by default). */
    constructor(minLength0: nat, timeThreshold0: int, now: int)
      ensures minLength == minLength0 && timeThreshold == timeThreshold0
      ensures buffer == "" && lastKeyTime == now && gathered == []
      ensures Valid()
    {
      minLength := minLength0;
      timeThreshold := timeThreshold0;
      buffer := "";
      lastKeyTime := now;
      gathered := [];
    }

    /** `handleKeyDown`. */
    method HandleKeyDown(key: string, now: int) returns (scan: Option<string>, prevented: bool)
      requires Valid()
      modifies this
      ensures !Handled(key) ==> scan.None? && !prevented && unchanged(this)
      ensures Handled(key) ==> lastKeyTime == now
      ensures key == "Enter" && Utf16Length(old(BufferAt(now))) >= minLength ==>
        scan == Some(old(BufferAt(now))) && prevented && buffer == "" && gathered == []
      ensures key == "Enter" && Utf16Length(old(BufferAt(now))) < minLength ==>
        scan.None? && !prevented && buffer == old(BufferAt(now)) && gathered == old(GatheredAt(now))
      ensures Utf16Length(key) <= 1 ==>
        scan.None? && !prevented && buffer == old(BufferAt(now)) + key && gathered == old(GatheredAt(now)) + [key]
      ensures scan.Some? ==> Utf16Length(scan.value) >= minLength && scan.value == Concat(old(GatheredAt(now)))
      ensures Valid()
    {
      scan, prevented := None, false;
      if Utf16Length(key) > 1 && key != "Enter" {
        return;
      }
      if now - lastKeyTime > timeThreshold {
        buffer := "";
        gathered := [];
      }
      lastKeyTime := now;
      if key == "Enter" {
        if Utf16Length(buffer) >= minLength {
          prevented := true;
          scan := Some(buffer);
          buffer := "";
          gathered := [];
        }
      } else {
        assert (gathered + [key])[..|gathered|] == gathered;
        buffer := buffer + key;
        gathered := gathered + [key];
      }
    }
  }

  /**
   * A stream of key presses: every string handed to `onScan` has at least
   * `minLength` characters, and there are no more scans than Enter presses.
   */
  method ScanSession(scanner: BarcodeScanner, events: seq<KeyEvent>) returns (scans: seq<string>)
    requires scanner.Valid()
    modifies scanner
    ensures scanner.Valid()
    ensures forall i :: 0 <= i < |scans| ==> Utf16Length(scans[i]) >= scanner.minLength
    ensures |scans| <= CountBy(events, IsEnter)
  {
    scans := [];
    for k := 0 to |events|
      invariant scanner.Valid()
      invariant forall i :: 0 <= i < |scans| ==> Utf16Length(scans[i]) >= scanner.minLength
      invariant |scans| <= CountBy(events[..k], IsEnter)
    {
      assert events[..k + 1][..k] == events[..k];
      var scan, _ := scanner.HandleKeyDown(events[k].key, events[k].time);
      if scan.Some? {
        scans := scans + [scan.value];
      }
    }
    assert events[..|events|] == events;
  }

  /** A code typed fast and ended by Enter reaches `onScan` whole. */
  method FastCodeIsScanned() returns (scan: Option<string>)
    ensures scan == Some("A12")
  {
    var scanner := new BarcodeScanner(3, 100, 0);
    var _, _ := scanner.HandleKeyDown("A", 10);
    var _, _ := scanner.HandleKeyDown("1", 20);
    var _, _ := scanner.HandleKeyDown("2", 30);
    assert scanner.buffer == "" + "A" + "1" + "2" == "A12";
    var prevented;
    scan, prevented := scanner.HandleKeyDown("Enter", 40);
  }

  /** A key outside the Basic Multilingual Plane has two code units, so it is not gathered. */
  method AstralKeyIsIgnored() returns (buffer: string)
    ensures buffer == ""
  {
    var scanner := new BarcodeScanner(3, 100, 0);
    AstralLength('\U{1F600}');
    var _, _ := scanner.HandleKeyDown("\U{1F600}", 10);
    buffer := scanner.buffer;
  }

  /** A pause longer than the threshold drops what was typed before it. */
  method SlowTypingIsNotScanned() returns (scan: Option<string>)
    ensures scan.None?
  {
    var scanner := new BarcodeScanner(3, 100, 0);
    var _, _ := scanner.HandleKeyDown("A", 10);
    var _, _ := scanner.HandleKeyDown("1", 20);
    var _, _ := scanner.HandleKeyDown("2", 500);
    var prevented;
    scan, prevented := scanner.HandleKeyDown("Enter", 510);
  }
}
