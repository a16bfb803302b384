/** The device dispatcher: binds the reset / start / run / render entry points
    of the CPU family named in the ROM header (gw_system_config). */
module Dispatcher {
  import opened Common
  import opened CString

  /** The five supported CPU families, in the order the dispatcher tries them. */
  datatype CpuFamily = SM500 | SM5A | SM510 | SM511 | SM512

  /** Position of a family in the dispatcher's sequence of comparisons. */
  function Rank(f: CpuFamily): nat
  {
    match f
    case SM500 => 0
    case SM5A => 1
    case SM510 => 2
    case SM511 => 3
    case SM512 => 4
  }

  /** The families whose R output drives a melody table. */
  predicate HasMelody(f: CpuFamily)
  {
    f == SM511 || f == SM512
  }

  /** The CPU-name constants of the ROM loader; their spellings are defined
      outside this model, so they are a parameter here. */
  datatype CpuNames = CpuNames(sm500: seq<char>, sm5a: seq<char>, sm510: seq<char>,
                               sm511: seq<char>, sm512: seq<char>)
  {
    function NameOf(f: CpuFamily): seq<char>
    {
      match f
      case SM500 => sm500
      case SM5A => sm5a
      case SM510 => sm510
      case SM511 => sm511
      case SM512 => sm512
    }
  }

  /** Number of characters the dispatcher compares. */
  const NameWidth: nat := 5

  /** `strncmp(cpu_name, name, 5) == 0` */
  predicate NameMatches(cpuName: seq<char>, names: CpuNames, f: CpuFamily)
  {
    StrnEq(cpuName, names.NameOf(f), NameWidth)
  }

  /** No two constants agree on their first five characters. */
  predicate DistinctNames(names: CpuNames)
  {
    forall f, g :: f != g ==> !StrnEq(names.NameOf(f), names.NameOf(g), NameWidth)
  }

  /** The family the dispatcher selects: names are tried in the order
      SM500, SM5A, SM510, SM511, SM512 and the first match wins. */
  function Lookup(cpuName: seq<char>, names: CpuNames): (r: Option<CpuFamily>)
    ensures r.Some? ==> NameMatches(cpuName, names, r.value)
    ensures r.Some? ==> forall g :: Rank(g) < Rank(r.value) ==> !NameMatches(cpuName, names, g)
    ensures r.None? <==> forall g :: !NameMatches(cpuName, names, g)
  {
    if NameMatches(cpuName, names, SM500) then Some(SM500)
    else if NameMatches(cpuName, names, SM5A) then Some(SM5A)
    else if NameMatches(cpuName, names, SM510) then Some(SM510)
    else if NameMatches(cpuName, names, SM511) then Some(SM511)
    else if NameMatches(cpuName, names, SM512) then Some(SM512)
    else None
  }

  /** The entry points an emulated family offers; `No...` is an unassigned
      (null) function pointer. */
  datatype StartEntry = NoStart | Sm500DeviceStart | Sm5aDeviceStart | Sm510DeviceStart
  datatype ResetEntry = NoReset | Sm500DeviceReset | Sm5aDeviceReset | Sm510DeviceReset | Sm511DeviceReset
  datatype RunEntry = NoRun | Sm500ExecuteRun | Sm5aExecuteRun | Sm510ExecuteRun | Sm511ExecuteRun
  datatype BlitEntry = NoBlit | Sm500Rendering | Sm510Rendering

  /** The four function-pointer slots. */
  datatype Binding = Binding(start: StartEntry, reset: ResetEntry, run: RunEntry, blit: BlitEntry)
  {
    /** Every slot holds an entry point. */
    predicate Complete()
    {
      start != NoStart && reset != NoReset && run != NoRun && blit != NoBlit
    }

    /** No slot holds an entry point. */
    predicate Empty()
    {
      start == NoStart && reset == NoReset && run == NoRun && blit == NoBlit
    }
  }

  const Unbound := Binding(NoStart, NoReset, NoRun, NoBlit)

  /** The slots the dispatcher assigns for each family. */
  function FamilyBinding(f: CpuFamily): (b: Binding)
    ensures b.Complete()
    ensures b.blit == (if f == SM500 || f == SM5A then Sm500Rendering else Sm510Rendering)
    ensures HasMelody(f) ==> b.start == Sm510DeviceStart
  {
    match f
    case SM500 => Binding(Sm500DeviceStart, Sm500DeviceReset, Sm500ExecuteRun, Sm500Rendering)
    case SM5A => Binding(Sm5aDeviceStart, Sm5aDeviceReset, Sm5aExecuteRun, Sm500Rendering)
    case SM510 => Binding(Sm510DeviceStart, Sm510DeviceReset, Sm510ExecuteRun, Sm510Rendering)
    case SM511 => Binding(Sm510DeviceStart, Sm511DeviceReset, Sm511ExecuteRun, Sm510Rendering)
    case SM512 => Binding(Sm510DeviceStart, Sm511DeviceReset, Sm511ExecuteRun, Sm510Rendering)
  }

  /** The value gw_system_config returns for a matched family, given what
      melody initialisation reports. */
  function ConfigResult(f: CpuFamily, melodyInitOk: bool): bool
  {
    if HasMelody(f) then melodyInitOk else true
  }

  /** The process-wide device slots, held in one session object. */
  class Device {
    var start: StartEntry
    var reset: ResetEntry
    var run: RunEntry
    var blit: BlitEntry
    /** Whether the graphics parameters have been initialised. */
    var gfxInitialized: bool

    function Slots(): Binding
      reads this
    {
      Binding(start, reset, run, blit)
    }

    /** Static storage: every function pointer starts out null. */
    constructor ()
      ensures Slots() == Unbound && !gfxInitialized
    {
      start, reset, run, blit := NoStart, NoReset, NoRun, NoBlit;
      gfxInitialized := false;
    }

    /** gw_system_config: initialise graphics, then bind the slots of the first
        family whose name matches. `melodyInitOk` is the result that melody-table
        initialisation would report; it is consulted only for SM511 and SM512. */
    method Config(cpuName: seq<char>, names: CpuNames, melodyInitOk: bool) returns (ok: bool)
      modifies this
      ensures gfxInitialized
      ensures Lookup(cpuName, names).None? ==> !ok && Slots() == old(Slots())
      ensures Lookup(cpuName, names).Some? ==>
                Slots() == FamilyBinding(Lookup(cpuName, names).value) &&
                ok == ConfigResult(Lookup(cpuName, names).value, melodyInitOk)
    {
      gfxInitialized := true;

      if StrnEq(cpuName, names.sm500, NameWidth) {
        start, reset, run, blit := Sm500DeviceStart, Sm500DeviceReset, Sm500ExecuteRun, Sm500Rendering;
        return true;
      }
      if StrnEq(cpuName, names.sm5a, NameWidth) {
        start, reset, run, blit := Sm5aDeviceStart, Sm5aDeviceReset, Sm5aExecuteRun, Sm500Rendering;
        return true;
      }
      if StrnEq(cpuName, names.sm510, NameWidth) {
        start, reset, run, blit := Sm510DeviceStart, Sm510DeviceReset, Sm510ExecuteRun, Sm510Rendering;
        return true;
      }
      if StrnEq(cpuName, names.sm511, NameWidth) {
        start, reset, run, blit := Sm510DeviceStart, Sm511DeviceReset, Sm511ExecuteRun, Sm510Rendering;
        return melodyInitOk;
      }
      if StrnEq(cpuName, names.sm512, NameWidth) {
        start, reset, run, blit := Sm510DeviceStart, Sm511DeviceReset, Sm511ExecuteRun, Sm510Rendering;
        return melodyInitOk;
      }
      return false;
    }
  }

  /** SM511 and SM512 are bound identically, and SM500 and SM5A share the
      SM500 renderer while the other three share the SM510 one. */
  lemma SharedEntryPoints()
    ensures FamilyBinding(SM511) == FamilyBinding(SM512)
    ensures FamilyBinding(SM500).blit == FamilyBinding(SM5A).blit == Sm500Rendering
    ensures FamilyBinding(SM510).start == FamilyBinding(SM511).start
    ensures FamilyBinding(SM510).blit == FamilyBinding(SM511).blit == Sm510Rendering
  {
  }

  /** The five families get five different run entry points except SM511/SM512,
      so the run slot identifies the family up to that pair. */
  lemma RunSlotIdentifiesFamily(f: CpuFamily, g: CpuFamily)
    requires FamilyBinding(f).run == FamilyBinding(g).run
    ensures f == g || (HasMelody(f) && HasMelody(g))
  {
  }

  /** A configuration never leaves the slots partly bound: starting from no
      binding or a complete one, the result is again one of the two. A failed
      melody initialisation still leaves the slots bound. */
  lemma ConfigNeverPartial(prev: Binding, cpuName: seq<char>, names: CpuNames)
    requires prev.Empty() || prev.Complete()
    ensures var r := Lookup(cpuName, names);
            var b := if r.Some? then FamilyBinding(r.value) else prev;
            b.Empty() || b.Complete()
  {
  }

  /** When the constants are pairwise distinct on five characters, the order
      of comparisons does not matter: a family is selected exactly when its
      name matches. */
  lemma LookupUniqueMatch(cpuName: seq<char>, names: CpuNames, f: CpuFamily)
    requires DistinctNames(names)
    ensures Lookup(cpuName, names) == Some(f) <==> NameMatches(cpuName, names, f)
  {
    var r := Lookup(cpuName, names);
    if NameMatches(cpuName, names, f) && r != Some(f) {
      assert r.Some?;
      var g := r.value;
      StrnEqSymmetric(cpuName, names.NameOf(g), NameWidth);
      StrnEqTransitive(names.NameOf(g), cpuName, names.NameOf(f), NameWidth);
      assert false;
    }
  }

  /** A ROM-header name field longer than five characters is matched on its
      first five only. */
  lemma LookupIgnoresTrailingCharacters(cpuName: seq<char>, t: seq<char>, names: CpuNames)
    requires NameWidth <= |cpuName|
    ensures Lookup(cpuName + t, names) == Lookup(cpuName, names)
  {
    forall f: CpuFamily
      ensures NameMatches(cpuName + t, names, f) == NameMatches(cpuName, names, f)
    {
      StrnEqIgnoresTail(cpuName, names.NameOf(f), t, 0, NameWidth);
    }
  }

  const ConventionalNames := CpuNames("SM500", "SM5A", "SM510", "SM511", "SM512")

  /** The conventional spellings of the five names are distinct. */
  lemma ConventionalNamesDistinct()
    ensures DistinctNames(ConventionalNames)
  {
    forall f, g | f != g
      ensures !StrnEq(ConventionalNames.NameOf(f), ConventionalNames.NameOf(g), NameWidth)
    {
      ConventionalNameDiffers(f, g);
    }
  }

  lemma ConventionalNameDiffers(f: CpuFamily, g: CpuFamily)
    requires f != g
    ensures !StrnEq(ConventionalNames.NameOf(f), ConventionalNames.NameOf(g), NameWidth)
  {
    var a, b := ConventionalNames.NameOf(f), ConventionalNames.NameOf(g);
    StrnEqIsPrefixEquality(a, b, NameWidth);
    ConventionalNameVisible(f);
    ConventionalNameVisible(g);
    assert a[3..] != b[3..];
  }

  /** Each conventional spelling is shorter than the compared width. */
  lemma ConventionalNameVisible(f: CpuFamily)
    ensures CPrefix(ConventionalNames.NameOf(f), NameWidth) == ConventionalNames.NameOf(f)
  {
    match f
    case SM500 => PrefixOfShortName("SM500");
    case SM5A => PrefixOfShortName("SM5A");
    case SM510 => PrefixOfShortName("SM510");
    case SM511 => PrefixOfShortName("SM511");
    case SM512 => PrefixOfShortName("SM512");
  }

  /** A name of at most five non-NUL characters is its own visible prefix. */
  lemma {:induction false} PrefixOfShortNameFrom(s: seq<char>, i: nat)
    requires |s| <= NameWidth && i <= |s|
    requires forall k :: 0 <= k < |s| ==> s[k] != '\0'
    ensures CPrefixFrom(s, i, NameWidth) == s[i..]
    decreases |s| - i
  {
    if i < |s| {
      PrefixOfShortNameFrom(s, i + 1);
      assert s[i..] == [s[i]] + s[i + 1..];
    }
  }

  lemma PrefixOfShortName(s: seq<char>)
    requires |s| <= NameWidth
    requires forall k :: 0 <= k < |s| ==> s[k] != '\0'
    ensures CPrefix(s, NameWidth) == s
  {
    PrefixOfShortNameFrom(s, 0);
  }
}
