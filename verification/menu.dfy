/**
 * The console menu: keys "a" to "h" start one of the eight loaders, "x"
 * sets the exit flag, and any other key shows the menu again. Every loader
 * ends by waiting for one key ("press any key"), which the menu never sees.
 */
module Menu {
  import opened Wrappers
  import opened Schema

  datatype Loader = Loader(mode: Mode, version: Version)

  const ExitKey: char := 'x'

  /** The loader a menu key starts, if any. */
  function Select(key: char): (r: Option<Loader>)
    ensures r.Some? <==> 'a' <= key <= 'h'
    ensures r.Some? ==> KeyOf(r.value) == key
  {
    match key
    case 'a' => Some(Loader(ItemLoad, V1))
    case 'b' => Some(Loader(ItemLoad, V2))
    case 'c' => Some(Loader(ItemLoad, V3))
    case 'd' => Some(Loader(ItemLoad, V4))
    case 'e' => Some(Loader(BulkLoad, V1))
    case 'f' => Some(Loader(BulkLoad, V2))
    case 'g' => Some(Loader(BulkLoad, V3))
    case 'h' => Some(Loader(BulkLoad, V4))
    case _ => None
  }

  /** The key the menu lists for a loader. */
  function KeyOf(l: Loader): char {
    match (l.mode, l.version)
    case (ItemLoad, V1) => 'a'
    case (ItemLoad, V2) => 'b'
    case (ItemLoad, V3) => 'c'
    case (ItemLoad, V4) => 'd'
    case (BulkLoad, V1) => 'e'
    case (BulkLoad, V2) => 'f'
    case (BulkLoad, V3) => 'g'
    case (BulkLoad, V4) => 'h'
  }

  /** Every loader has its own key, and a key starts a loader only if it is that loader's key. */
  lemma SelectKeyOf(l: Loader, key: char)
    ensures Select(KeyOf(l)) == Some(l)
    ensures Select(key) == Some(l) ==> key == KeyOf(l)
    ensures Select(key).Some? <==> 'a' <= key <= 'h'
  {
  }

  /** What a run of the menu did: the loaders it started, whether it exited, and how many keys it read. */
  datatype Session = Session(runs: seq<Loader>, exited: bool, consumed: nat)

  /**
   * The menu over a finite key sequence. After a loader the next key is
   * taken by the loader's final wait; when the keys run out the program is
   * left waiting and has not exited.
   */
  function Run(keys: seq<char>): (s: Session)
    ensures s.consumed <= |keys|
    ensures s.exited ==> 0 < s.consumed && keys[s.consumed - 1] == ExitKey
    ensures !s.exited ==> s.consumed == |keys|
    ensures |s.runs| <= s.consumed
    decreases |keys|
  {
    if keys == [] then Session([], false, 0)
    else if keys[0] == ExitKey then Session([], true, 1)
    else match Select(keys[0])
      case None =>
        var s := Run(keys[1..]);
        Session(s.runs, s.exited, s.consumed + 1)
      case Some(l) =>
        if |keys| == 1 then Session([l], false, 1)
        else
          var s := Run(keys[2..]);
          Session([l] + s.runs, s.exited, s.consumed + 2)
  }

  /** A key that is neither a loader key nor "x" leaves the menu where it was. */
  lemma OtherKeyLoops(key: char, rest: seq<char>)
    requires key != ExitKey && Select(key).None?
    ensures Run([key] + rest) == Session(Run(rest).runs, Run(rest).exited, Run(rest).consumed + 1)
  {
    assert ([key] + rest)[1..] == rest;
  }

  /** A loader key starts exactly its loader, and the key after it is not read by the menu, so it cannot exit. */
  lemma LoaderKeyDispatches(key: char, next: char, rest: seq<char>)
    requires Select(key).Some?
    ensures Run([key, next] + rest) == Session([Select(key).value] + Run(rest).runs, Run(rest).exited, Run(rest).consumed + 2)
  {
    assert ([key, next] + rest)[2..] == rest;
  }

  /**
   * The keys the menu itself reads, exit or no exit: every key except the
   * one a loader's final wait takes after it.
   */
  function ReadKeys(keys: seq<char>): (r: seq<char>)
    ensures |r| <= |keys|
    decreases |keys|
  {
    if keys == [] then []
    else if Select(keys[0]).Some? then
      if |keys| == 1 then [keys[0]] else [keys[0]] + ReadKeys(keys[2..])
    else [keys[0]] + ReadKeys(keys[1..])
  }

  /** The menu exits exactly when it reads an "x". */
  lemma {:induction false} ExitIffXRead(keys: seq<char>)
    ensures Run(keys).exited <==> ExitKey in ReadKeys(keys)
    decreases |keys|
  {
    if keys != [] && keys[0] != ExitKey {
      if Select(keys[0]).Some? {
        if |keys| > 1 {
          ExitIffXRead(keys[2..]);
        }
      } else {
        ExitIffXRead(keys[1..]);
      }
    }
  }

  /** Keys that start nothing, then "x": the menu exits on that "x" having started no loader. */
  lemma {:induction false} ExitOnFirstX(pre: seq<char>, rest: seq<char>)
    requires forall i :: 0 <= i < |pre| ==> pre[i] != ExitKey && Select(pre[i]).None?
    ensures Run(pre + [ExitKey] + rest) == Session([], true, |pre| + 1)
    decreases |pre|
  {
    if pre != [] {
      ExitOnFirstX(pre[1..], rest);
      assert (pre + [ExitKey] + rest)[1..] == pre[1..] + [ExitKey] + rest;
    }
  }

  /** Without an "x" among the keys the menu never exits. */
  lemma {:induction false} NoExitWithoutX(keys: seq<char>)
    requires forall i :: 0 <= i < |keys| ==> keys[i] != ExitKey
    ensures !Run(keys).exited
  {
  }

  /** A session that first started `runs` over `consumed` keys and then went on as `s`. */
  function After(runs: seq<Loader>, consumed: nat, s: Session): Session {
    Session(runs + s.runs, s.exited, consumed + s.consumed)
  }

  /** What the menu does from position `i` on, one key at a time. */
  lemma RunFrom(keys: seq<char>, i: nat)
    requires i < |keys|
    ensures keys[i] == ExitKey ==> Run(keys[i..]) == Session([], true, 1)
    ensures keys[i] != ExitKey && Select(keys[i]).None? ==>
      var s := Run(keys[i + 1..]);
      Run(keys[i..]) == Session(s.runs, s.exited, s.consumed + 1)
    ensures keys[i] != ExitKey && Select(keys[i]).Some? && i + 1 == |keys| ==>
      Run(keys[i..]) == Session([Select(keys[i]).value], false, 1)
    ensures keys[i] != ExitKey && Select(keys[i]).Some? && i + 1 < |keys| ==>
      var s := Run(keys[i + 2..]);
      Run(keys[i..]) == Session([Select(keys[i]).value] + s.runs, s.exited, s.consumed + 2)
  {
    assert keys[i..][1..] == keys[i + 1..];
    if i + 1 < |keys| {
      assert keys[i..][2..] == keys[i + 2..];
    }
  }

  /**
   * One round of the menu: read a key, start its loader and let the loader's
   * wait take the next key, or set the exit flag on "x".
   */
  method ReadOneKey(keys: seq<char>, runs: seq<Loader>, consumed: nat) returns (runs': seq<Loader>, exit: bool, consumed': nat)
    requires consumed < |keys|
    ensures consumed < consumed' <= |keys|
    ensures !exit ==> After(runs', consumed', Run(keys[consumed'..])) == After(runs, consumed, Run(keys[consumed..]))
    ensures exit ==> Session(runs', true, consumed') == After(runs, consumed, Run(keys[consumed..]))
  {
    RunFrom(keys, consumed);
    var key := keys[consumed];
    runs', exit, consumed' := runs, false, consumed + 1;
    if key == ExitKey {
      exit := true;
    } else {
      var selected := Select(key);
      if selected.Some? {
        runs' := runs + [selected.value];
        if consumed' < |keys| {
          consumed' := consumed' + 1;
        }
      }
    }
  }

  /**
   * The menu loop: read a key, start its loader (which then waits for a key
   * of its own), set the exit flag on "x", and go round until the flag is set
   * or the keys run out.
   */
  method RunMenu(keys: seq<char>) returns (runs: seq<Loader>, exit: bool, consumed: nat)
    ensures Session(runs, exit, consumed) == Run(keys)
  {
    runs, exit, consumed := [], false, 0;
    while exit == false && consumed < |keys|
      invariant consumed <= |keys|
      invariant !exit ==> Run(keys) == After(runs, consumed, Run(keys[consumed..]))
      invariant exit ==> Run(keys) == Session(runs, true, consumed)
      decreases |keys| - consumed, if exit then 0 else 1
    {
      runs, exit, consumed := ReadOneKey(keys, runs, consumed);
    }
    assert !exit ==> keys[consumed..] == [];
  }
}
