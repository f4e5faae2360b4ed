/**
 * The button dispatcher: four buttons, one action each, and the slideshow's
 * endless cycle over the image directory's listing taken once at start-up.
 * GPIO set-up, debouncing, the display driver and image decoding are not
 * modelled; the display is the ordered log of calls made on it.
 */
module Buttons {
  import opened Wrappers
  import Calendar
  import NetTable

  /** The GPIO pins of the four buttons, top to bottom. */
  const ButtonPins: seq<int> := [5, 6, 16, 24]
  /** The saturation handed to the display with every image. */
  const Saturation: real := 0.5
  /** The slideshow directory. */
  const DirectoryPath: string := "images/"

  /** `os.path.join(directory, name)` for two parts on a POSIX system. */
  function PathJoin(directory: string, name: string): (path: string)
    ensures |name| > 0 && name[0] == '/' ==> path == name
    ensures !(|name| > 0 && name[0] == '/') ==>
      directory <= path && |directory| + |name| <= |path| <= |directory| + |name| + 1 &&
      path[|path| - |name|..] == name &&
      (directory != [] ==> path[|path| - |name| - 1] == '/')
    ensures !(|name| > 0 && name[0] == '/') && (directory == [] || directory[|directory| - 1] == '/') ==>
      |path| == |directory| + |name|
    ensures !(|name| > 0 && name[0] == '/') && directory != [] && directory[|directory| - 1] != '/' ==>
      |path| == |directory| + |name| + 1
  {
    if |name| > 0 && name[0] == '/' then name
    else if directory == [] || directory[|directory| - 1] == '/' then directory + name
    else directory + "/" + name
  }

  // ---------------------------------------------------------------------
  // The file cycle

  /** The first k values `itertools.cycle(files)` yields. */
  function Cycled(files: seq<string>, k: nat): (out: seq<string>)
    requires files != []
    ensures |out| == k
    ensures forall i :: 0 <= i < k ==> out[i] == files[i % |files|]
  {
    if k == 0 then [] else Cycled(files, k - 1) + [files[(k - 1) % |files|]]
  }

  /** A positive multiple of n is at least n. */
  lemma MultipleAtLeast(d: int, n: int)
    requires d >= 1 && n > 0
    ensures d * n >= n
  {
    assert d * n == (d - 1) * n + n;
    assert (d - 1) * n >= 0;
  }

  /** Euclidean division is unique: a quotient and remainder in range are the ones `/` and `%` give. */
  lemma ModUnique(a: int, n: int, q: int, r: int)
    requires n > 0 && 0 <= r < n && a == q * n + r
    ensures a / n == q && a % n == r
  {
    var q', r' := a / n, a % n;
    assert a == q' * n + r';
    if q' < q {
      var d := q - q';
      assert q * n == q' * n + d * n;
      MultipleAtLeast(d, n);
    } else if q < q' {
      var d := q' - q;
      assert q' * n == q * n + d * n;
      MultipleAtLeast(d, n);
    }
  }

  /** Stepping the count once steps the position once, wrapping from the last file to the first. */
  lemma ModSucc(a: nat, n: nat)
    requires n > 0
    ensures (a + 1) % n == if a % n + 1 == n then 0 else a % n + 1
  {
    var q, r := a / n, a % n;
    if r + 1 == n {
      ModUnique(a + 1, n, q + 1, 0);
    } else {
      ModUnique(a + 1, n, q, r + 1);
    }
  }

  /** Within the first two rounds, advance i yields file i of the first round or file i - n of the second. */
  lemma TwoRoundsAt(files: seq<string>, i: nat)
    requires files != [] && i < 2 * |files|
    ensures Cycled(files, 2 * |files|)[i] == (files + files)[i]
  {
    var n := |files|;
    if i < n {
      ModUnique(i, n, 0, i);
      assert i % n == i;
    } else {
      ModUnique(i, n, 1, i - n);
      assert i % n == i - n;
    }
  }

  /**
   * 2n advances over n files give the listing twice, in the same order both
   * times, so each file is yielded exactly twice as often as it is listed.
   */
  lemma TwoRounds(files: seq<string>)
    requires files != []
    ensures Cycled(files, 2 * |files|) == files + files
    ensures multiset(Cycled(files, 2 * |files|)) == multiset(files) + multiset(files)
  {
    forall i | 0 <= i < 2 * |files|
      ensures Cycled(files, 2 * |files|)[i] == (files + files)[i]
    {
      TwoRoundsAt(files, i);
    }
    assert Cycled(files, 2 * |files|) == files + files;
  }

  /**
   * The slideshow's `itertools.cycle` over a directory listing taken once:
   * the joined paths `files`, fixed at creation, and the position of the
   * next one. `advances` counts the values yielded, `yielded` lists them.
   */
  class FileCycle {
    const files: seq<string>
    var cursor: nat
    ghost var advances: nat
    ghost var yielded: seq<string>

    ghost predicate Valid()
      reads this
    {
      if files == [] then cursor == 0 && advances == 0 && yielded == []
      else cursor == advances % |files| && yielded == Cycled(files, advances)
    }

    /** file_generator: every entry of the listing joined to the directory, in listing order. */
    constructor (directory: string, listing: seq<string>)
      ensures Valid() && advances == 0 && yielded == []
      ensures |files| == |listing|
      ensures forall i :: 0 <= i < |listing| ==> files[i] == PathJoin(directory, listing[i])
    {
      files := seq(|listing|, i requires 0 <= i < |listing| => PathJoin(directory, listing[i]));
      cursor := 0;
      advances := 0;
      yielded := [];
    }

    /**
     * `next(file_gen)`: the file at the cursor, then the cursor moves on,
     * wrapping after the last file. An empty listing yields nothing
     * (`StopIteration`) and nothing changes.
     */
    method Next() returns (file: Option<string>)
      requires Valid()
      modifies this
      ensures Valid()
      ensures files == [] ==> file == None && cursor == old(cursor) && advances == old(advances) && yielded == old(yielded)
      ensures files != [] ==> file == Some(files[old(advances) % |files|]) && advances == old(advances) + 1
      ensures files != [] ==> yielded == old(yielded) + [file.value]
    {
      if files == [] {
        return None;
      }
      file := Some(files[cursor]);
      ModSucc(advances, |files|);
      cursor := if cursor + 1 == |files| then 0 else cursor + 1;
      advances := advances + 1;
      yielded := yielded + [file.value];
    }
  }

  // ---------------------------------------------------------------------
  // The dispatcher

  /** What a button does. */
  datatype Action = ShowCalendar | ShowNetwork | AdvanceSlideshow

  /** handle_button's choice: pin 5 the calendar, pin 6 the network table, any other pin the slideshow. */
  function PinAction(pin: int): (a: Action)
    ensures a == ShowCalendar <==> pin == 5
    ensures a == ShowNetwork <==> pin == 6
    ensures a == AdvanceSlideshow <==> pin != 5 && pin != 6
  {
    if pin == 5 then ShowCalendar else if pin == 6 then ShowNetwork else AdvanceSlideshow
  }

  /** Top to bottom, the buttons show the calendar, the network table, and the next slide twice over. */
  lemma ButtonActions()
    ensures |ButtonPins| == 4
    ensures PinAction(ButtonPins[0]) == ShowCalendar && PinAction(ButtonPins[1]) == ShowNetwork
    ensures PinAction(ButtonPins[2]) == AdvanceSlideshow && PinAction(ButtonPins[3]) == AdvanceSlideshow
  {
  }

  /** The image a press produces. */
  datatype Image = CalendarImage(calendar: Calendar.CalImage) | NetworkImage(network: NetTable.NetImage) | FileImage(path: string)

  /** A call on the display driver. */
  datatype DisplayCall = SetImage(image: Image, saturation: real) | Show

  /** The running appliance: the slideshow cycle over `images/` and the calls made on the display so far. */
  class Dispatcher {
    const cycle: FileCycle
    var calls: seq<DisplayCall>

    ghost predicate Valid()
      reads this, cycle
    {
      cycle.Valid()
    }

    /** Start-up: the slideshow cycle over the listing of `images/`, nothing shown yet. */
    constructor (listing: seq<string>)
      ensures Valid() && fresh(cycle) && calls == []
      ensures cycle.advances == 0 && |cycle.files| == |listing|
      ensures forall i :: 0 <= i < |listing| ==> cycle.files[i] == PathJoin(DirectoryPath, listing[i])
    {
      cycle := new FileCycle(DirectoryPath, listing);
      calls := [];
    }

    /**
     * handle_button: produce the image for `pin`, then set it on the display
     * at saturation 0.5 and show it. `calendar` and `hosts` stand for what the
     * weather service, the clock and the network scan would return. Only the
     * slideshow pins move the cycle; an empty slideshow raises before
     * anything reaches the display.
     */
    method HandleButton(pin: int, calendar: Calendar.CalInputs, hosts: seq<NetTable.Host>) returns (shown: Option<Image>)
      requires Valid()
      modifies this, cycle
      ensures Valid()
      ensures PinAction(pin) != AdvanceSlideshow ==>
        cycle.cursor == old(cycle.cursor) && cycle.advances == old(cycle.advances) && cycle.yielded == old(cycle.yielded)
      ensures pin == 5 ==> shown == Some(CalendarImage(Calendar.GetCalImage(calendar)))
      ensures pin == 6 ==> shown.Some? && shown.value.NetworkImage? && NetTable.ShowsHosts(shown.value.network, hosts)
      ensures PinAction(pin) == AdvanceSlideshow && cycle.files == [] ==> shown == None && cycle.advances == old(cycle.advances)
      ensures PinAction(pin) == AdvanceSlideshow && cycle.files != [] ==>
        shown == Some(FileImage(cycle.files[old(cycle.advances) % |cycle.files|])) &&
        cycle.advances == old(cycle.advances) + 1
      ensures shown.Some? ==> calls == old(calls) + [SetImage(shown.value, Saturation), Show]
      ensures shown.None? ==> calls == old(calls)
    {
      var image: Image;
      if pin == 5 {
        image := CalendarImage(Calendar.GetCalImage(calendar));
      } else if pin == 6 {
        var network := NetTable.GetNetworkImage(hosts);
        image := NetworkImage(network);
      } else {
        var filename := cycle.Next();
        if filename.None? {
          return None;
        }
        image := FileImage(filename.value);
      }
      calls := calls + [SetImage(image, Saturation)];
      calls := calls + [Show];
      shown := Some(image);
    }
  }
}
