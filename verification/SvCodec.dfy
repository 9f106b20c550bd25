// The satellite blacklist: a list of satellite ids on one side, one 64-bit mask per constellation on
// the other.  SBAS squeezes two id ranges into one mask, and id 0 stands for a whole constellation.
module SvCodec {
  import opened Mask64
  import opened Word32

  datatype SvType = Unknown | Gps | Sbas | Glonass | Qzss | Beidou | Galileo | Navic

  datatype Source = Source(constellation: SvType, svId: u32)

  // The six masks of GnssSvIdConfig, by constellation.
  type Config = c: map<SvType, bv64> | c.Keys == {Glonass, Beidou, Qzss, Galileo, Sbas, Navic}
    witness map[Glonass := 0, Beidou := 0, Qzss := 0, Galileo := 0, Sbas := 0, Navic := 0]

  const SBAS_INITIAL: u32 := 120
  const SBAS_LENGTH: u32 := 39
  const SBAS_INITIAL2: u32 := 183

  const CLEAR: Config := map[Glonass := 0, Beidou := 0, Qzss := 0, Galileo := 0, Sbas := 0, Navic := 0]

  predicate Masked(t: SvType) {
    t != Unknown && t != Gps
  }

  function Initial(t: SvType): u32
    requires Masked(t)
  {
    match t
    case Glonass => 65
    case Beidou => 201
    case Qzss => 193
    case Galileo => 301
    case Sbas => SBAS_INITIAL
    case Navic => 401
  }

  // ---- what a list of ids means ----

  // The satellite that bit `i` of a constellation's mask stands for.
  function Satellite(t: SvType, i: Index): u32
    requires Masked(t)
  {
    if t == Sbas && SBAS_LENGTH <= i then i - SBAS_LENGTH + SBAS_INITIAL2 else i + Initial(t)
  }

  // The source blacklists the satellite of bit `i` of constellation `t`.
  predicate Covers(s: Source, t: SvType, i: Index)
    requires Masked(t)
  {
    s.constellation == t && (s.svId == 0 || s.svId == Satellite(t, i))
  }

  // ---- list to masks: convertToGnssSvIdConfig ----

  // How far `1` is shifted for an id that passes the range checks.
  datatype Shift = Rejected | By(count: nat)

  function ShiftFrom(id: u32, init: u32, offset: u32): Shift {
    if id < init || init + 64 <= id then Rejected else By(id + offset - init)
  }

  function ShiftOf(s: Source): Shift
    requires Masked(s.constellation) && s.svId != 0
  {
    var id := s.svId;
    if s.constellation != Sbas then ShiftFrom(id, Initial(s.constellation), 0)
    else if SBAS_INITIAL2 <= id then ShiftFrom(id, SBAS_INITIAL2, SBAS_LENGTH)
    else if SBAS_INITIAL <= id < SBAS_INITIAL + SBAS_LENGTH then ShiftFrom(id, SBAS_INITIAL, 0)
    else Rejected
  }

  // C++ leaves shifts of 64 or more undefined.
  predicate Defined(s: Source) {
    Masked(s.constellation) && s.svId != 0 && ShiftOf(s).By? ==> ShiftOf(s).count < 64
  }

  // The range checks let undefined shifts through for exactly the SBAS ids 208 to 246.
  lemma UndefinedShifts(s: Source)
    ensures Defined(s) <==> !(s.constellation == Sbas && 208 <= s.svId <= 246)
  {
  }

  // What a source does to its constellation's mask.
  function EncodedMask(s: Source, m: bv64): bv64
    requires Defined(s) && Masked(s.constellation)
  {
    if s.svId == 0 then ALL
    else
      match ShiftOf(s)
      case Rejected => m
      case By(n) => m | One(n)
  }

  function Encoded(s: Source, c: Config): Config
    requires Defined(s)
  {
    if Masked(s.constellation) then c[s.constellation := EncodedMask(s, c[s.constellation])] else c
  }

  function EncodedAll(list: seq<Source>, c: Config): Config
    requires forall s :: s in list ==> Defined(s)
    decreases |list|
  {
    if list == [] then c else Encoded(list[|list| - 1], EncodedAll(list[..|list| - 1], c))
  }

  // The shift finds the satellite's bit, if it has one.
  lemma ShiftIsPosition(s: Source, i: Index)
    requires Masked(s.constellation) && s.svId != 0
    ensures s.svId == Satellite(s.constellation, i) <==> ShiftOf(s) == By(i)
  {
  }

  lemma EncodedMaskMeaning(s: Source, m: bv64, i: Index)
    requires Defined(s) && Masked(s.constellation)
    ensures Bit(EncodedMask(s, m), i) <==> Bit(m, i) || Covers(s, s.constellation, i)
  {
    if s.svId == 0 {
      BitOfAll(i);
    } else {
      ShiftIsPosition(s, i);
      match ShiftOf(s)
      case Rejected =>
      case By(n) => BitOfOr(m, n, i);
    }
  }

  // One source sets exactly the bits of the satellites it covers.
  lemma EncodedMeaning(s: Source, c: Config, t: SvType, i: Index)
    requires Defined(s) && Masked(t)
    ensures Bit(Encoded(s, c)[t], i) <==> Bit(c[t], i) || Covers(s, t, i)
  {
    if s.constellation == t {
      EncodedMaskMeaning(s, c[t], i);
    }
  }

  // A list of ids means the set of satellites it covers, whatever its order and repetitions.
  lemma {:induction false} EncodedAllMeaning(list: seq<Source>, c: Config, t: SvType, i: Index)
    requires (forall s :: s in list ==> Defined(s)) && Masked(t)
    ensures Bit(EncodedAll(list, c)[t], i) <==>
            Bit(c[t], i) || exists s :: s in list && Covers(s, t, i)
    decreases |list|
  {
    if list != [] {
      var front, last := list[..|list| - 1], list[|list| - 1];
      EncodedAllMeaning(front, c, t, i);
      EncodedMeaning(last, EncodedAll(front, c), t, i);
      assert forall s :: s in list <==> s == last || s in front;
    }
  }

  // The satellite ids themselves: which one each bit of a cleared mask stands for.
  lemma BitOfId(t: SvType, id: u32, i: Index)
    requires Masked(t) && Defined(Source(t, id))
    ensures Bit(Encoded(Source(t, id), CLEAR)[t], i) <==>
            id == 0 ||
            match t
            case Glonass => id == 65 + i
            case Beidou => id == 201 + i
            case Qzss => id == 193 + i
            case Galileo => id == 301 + i
            case Sbas => id == if i < 39 then 120 + i else 183 + (i - 39)
            case Navic => id == 401 + i
  {
    EncodedMeaning(Source(t, id), CLEAR, t, i);
    BitOfZero(i);
  }

  lemma SameConfig(a: Config, b: Config)
    requires forall t, i: Index :: Masked(t) ==> Bit(a[t], i) == Bit(b[t], i)
    ensures a == b
  {
    forall t | t in a
      ensures a[t] == b[t]
    {
      Extensional(a[t], b[t]);
    }
  }

  lemma OrderDoesNotMatter(one: seq<Source>, other: seq<Source>, c: Config)
    requires forall s :: s in one <==> s in other
    requires forall s :: s in one ==> Defined(s)
    ensures EncodedAll(one, c) == EncodedAll(other, c)
  {
    forall t, i: Index | Masked(t)
      ensures Bit(EncodedAll(one, c)[t], i) == Bit(EncodedAll(other, c)[t], i)
    {
      EncodedAllMeaning(one, c, t, i);
      EncodedAllMeaning(other, c, t, i);
    }
    SameConfig(EncodedAll(one, c), EncodedAll(other, c));
  }

  // ---- masks to list: convertFromGnssSvIdConfig ----

  // The id written for bit `n`, counted from `init`.
  function IdAt(t: SvType, init: u32, n: Index): u32
    requires init < 1000
  {
    if t == Sbas && SBAS_LENGTH <= n then n - SBAS_LENGTH + SBAS_INITIAL2 else n + init
  }

  // A mask shifted down `n` times: `n` and its lowest bits make up at most 64.
  ghost predicate Fits(m: bv64, n: nat) {
    n <= 64 && forall i: Index :: Bit(m, i) ==> i + n < 64
  }

  lemma HalfFits(m: bv64, n: nat)
    requires Fits(m, n) && m != 0
    ensures n < 64 && Fits(m >> 1, n + 1) && m >> 1 < m
  {
    var i := SomeBit(m);
    var half := m >> 1;
    forall i: Index | Bit(half, i)
      ensures i + (n + 1) < 64
    {
      BitOfHalf(m, i);
    }
    HalfIsLess(m);
  }

  function BitEntry(m: bv64, n: Index, init: u32, t: SvType): seq<Source>
    requires init < 1000
  {
    if m & 1 == 1 then [Source(t, IdAt(t, init, n))] else []
  }

  function Bits(m: bv64, n: nat, init: u32, t: SvType): seq<Source>
    requires Fits(m, n) && init < 1000
    decreases m
  {
    if m == 0 then []
    else
      HalfFits(m, n);
      BitEntry(m, n, init, t) + Bits(m >> 1, n + 1, init, t)
  }

  lemma BitsStep(m: bv64, half: bv64, n: nat, init: u32, t: SvType, written: seq<Source>, all: seq<Source>)
    requires Fits(m, n) && m != 0 && init < 1000 && half == m >> 1
    requires written + Bits(m, n, init, t) == all
    ensures n < 64 && Fits(half, n + 1) && half < m
    ensures (if m & 1 == 1 then written + [Source(t, IdAt(t, init, n))] else written) +
            Bits(half, n + 1, init, t) == all
  {
    HalfFits(m, n);
  }

  lemma WholeFits(m: bv64)
    ensures Fits(m, 0)
  {
  }

  function MaskList(m: bv64, init: u32, t: SvType): seq<Source>
    requires init < 1000
  {
    WholeFits(m);
    if m == ALL then [Source(t, 0)] else Bits(m, 0, init, t)
  }

  function TypeList(m: bv64, t: SvType): seq<Source>
    requires Masked(t)
  {
    if m == 0 then []
    else if t == Sbas then MaskList(Low39(m), SBAS_INITIAL, Sbas) + MaskList(From39(m), SBAS_INITIAL2, Sbas)
    else MaskList(m, Initial(t), t)
  }

  function ListOf(c: Config, t: SvType): seq<Source>
    requires Masked(t)
  {
    TypeList(c[t], t)
  }

  function Decoded(c: Config): seq<Source> {
    ListOf(c, Beidou) + ListOf(c, Galileo) + ListOf(c, Glonass) + ListOf(c, Qzss) + ListOf(c, Sbas) + ListOf(c, Navic)
  }

  // Position `k` of the whole mask is still set in what remains after `n` shifts.
  predicate SetAt(m: bv64, n: nat, k: Index) {
    n <= k && Bit(m, k - n)
  }

  lemma SetAtHalf(m: bv64, n: nat, k: Index)
    ensures SetAt(m, n, k) <==> (k == n && m & 1 == 1) || SetAt(m >> 1, n + 1, k)
  {
  }

  // The loop writes exactly the ids of the bits that are set.
  ghost predicate Written(m: bv64, n: nat, init: u32, t: SvType, s: Source)
    requires init < 1000
  {
    exists k: Index :: SetAt(m, n, k) && s == Source(t, IdAt(t, init, k))
  }

  lemma WrittenHalf(m: bv64, half: bv64, n: Index, init: u32, t: SvType, s: Source)
    requires init < 1000 && half == m >> 1
    ensures Written(m, n, init, t, s) <==> s in BitEntry(m, n, init, t) || Written(half, n + 1, init, t, s)
  {
    forall k: Index
      ensures SetAt(m, n, k) <==> (k == n && m & 1 == 1) || SetAt(half, n + 1, k)
    {
      SetAtHalf(m, n, k);
    }
  }

  lemma {:induction false} BitsMembers(m: bv64, n: nat, init: u32, t: SvType, s: Source)
    requires Fits(m, n) && init < 1000
    ensures s in Bits(m, n, init, t) <==> Written(m, n, init, t, s)
    decreases m
  {
    if m == 0 {
      forall k: Index
        ensures !SetAt(m, n, k)
      {
        if n <= k {
          BitOfZero(k - n);
        }
      }
    } else {
      HalfFits(m, n);
      BitsMembers(m >> 1, n + 1, init, t, s);
      WrittenHalf(m, m >> 1, n, init, t, s);
    }
  }

  lemma MaskListMembers(m: bv64, init: u32, t: SvType, s: Source)
    requires init < 1000
    ensures s in MaskList(m, init, t) <==>
            if m == ALL then s == Source(t, 0)
            else exists i: Index :: Bit(m, i) && s == Source(t, IdAt(t, init, i))
  {
    WholeFits(m);
    if m != ALL {
      BitsMembers(m, 0, init, t, s);
      if i: Index :| Bit(m, i) && s == Source(t, IdAt(t, init, i)) {
        assert SetAt(m, 0, i);
      }
    }
  }

  // What is listed for a constellation: everything, or the satellites of its set bits.
  lemma ListOfMembers(c: Config, t: SvType, s: Source)
    requires Masked(t)
    ensures s in ListOf(c, t) <==>
            if t != Sbas && c[t] == ALL then s == Source(t, 0)
            else exists i: Index :: Bit(c[t], i) && s == Source(t, Satellite(t, i))
  {
    var m := c[t];
    if m == 0 {
      forall i: Index
        ensures !Bit(m, i)
      {
        BitOfZero(i);
      }
    } else if t != Sbas {
      MaskListMembers(m, Initial(t), t, s);
    } else {
      SbasListMembers(m, s);
    }
  }

  lemma SbasListMembers(m: bv64, s: Source)
    ensures s in MaskList(Low39(m), SBAS_INITIAL, Sbas) + MaskList(From39(m), SBAS_INITIAL2, Sbas) <==>
            exists i: Index :: Bit(m, i) && s == Source(Sbas, Satellite(Sbas, i))
  {
    PartsAreNotAll(m);
    MaskListMembers(Low39(m), SBAS_INITIAL, Sbas, s);
    MaskListMembers(From39(m), SBAS_INITIAL2, Sbas, s);
    if i: Index :| Bit(Low39(m), i) && s == Source(Sbas, IdAt(Sbas, SBAS_INITIAL, i)) {
      BitOfLow(m, i);
      assert Bit(m, i) && s == Source(Sbas, Satellite(Sbas, i));
    }
    if i: Index :| Bit(From39(m), i) && s == Source(Sbas, IdAt(Sbas, SBAS_INITIAL2, i)) {
      BitOfHigh(m, i);
      assert Bit(m, i + 39) && s == Source(Sbas, Satellite(Sbas, i + 39));
    }
    if i: Index :| Bit(m, i) && s == Source(Sbas, Satellite(Sbas, i)) {
      if i < 39 {
        BitOfLow(m, i);
        assert Bit(Low39(m), i) && s == Source(Sbas, IdAt(Sbas, SBAS_INITIAL, i));
      } else {
        BitOfHigh(m, i - 39);
        assert Bit(From39(m), i - 39) && s == Source(Sbas, IdAt(Sbas, SBAS_INITIAL2, i - 39));
      }
    }
  }

  // ---- round trip ----

  // The list written for a constellation covers exactly the bits of its mask.
  lemma ListOfCovers(c: Config, t: SvType, i: Index)
    requires Masked(t)
    ensures (exists s :: s in ListOf(c, t) && Covers(s, t, i)) <==> Bit(c[t], i)
  {
    if Bit(c[t], i) {
      var s := if t != Sbas && c[t] == ALL then Source(t, 0) else Source(t, Satellite(t, i));
      ListOfMembers(c, t, s);
      assert s in ListOf(c, t) && Covers(s, t, i);
    }
    if s :| s in ListOf(c, t) && Covers(s, t, i) {
      ListOfMembers(c, t, s);
      if t != Sbas && c[t] == ALL {
        BitOfAll(i);
      } else {
        var k: Index :| Bit(c[t], k) && s == Source(t, Satellite(t, k));
        assert k == i;
      }
    }
  }

  lemma DecodedByType(c: Config, s: Source)
    ensures s in Decoded(c) <==> Masked(s.constellation) && s in ListOf(c, s.constellation)
  {
    ListOfMembers(c, Beidou, s);
    ListOfMembers(c, Galileo, s);
    ListOfMembers(c, Glonass, s);
    ListOfMembers(c, Qzss, s);
    ListOfMembers(c, Sbas, s);
    ListOfMembers(c, Navic, s);
  }

  // Every id written can be read back.
  lemma DecodedIsDefined(c: Config)
    ensures forall s :: s in Decoded(c) ==> Defined(s)
  {
    forall s | s in Decoded(c)
      ensures Defined(s)
    {
      DecodedByType(c, s);
      ListOfMembers(c, s.constellation, s);
      UndefinedShifts(s);
    }
  }

  // Masks to list and back into a cleared configuration gives the same masks, for all six masks.
  lemma RoundTrip(c: Config)
    ensures (forall s :: s in Decoded(c) ==> Defined(s)) && EncodedAll(Decoded(c), CLEAR) == c
  {
    DecodedIsDefined(c);
    var back := EncodedAll(Decoded(c), CLEAR);
    forall t, i: Index | Masked(t)
      ensures Bit(back[t], i) == Bit(c[t], i)
    {
      EncodedAllMeaning(Decoded(c), CLEAR, t, i);
      BitOfZero(i);
      ListOfCovers(c, t, i);
      forall s
        ensures s in Decoded(c) && Covers(s, t, i) <==> s in ListOf(c, t) && Covers(s, t, i)
      {
        DecodedByType(c, s);
      }
    }
    SameConfig(back, c);
  }

  predicate ListCovers(list: seq<Source>, t: SvType, i: Index)
    requires Masked(t)
  {
    exists s :: s in list && Covers(s, t, i)
  }

  // List to masks and back gives another list, but of exactly the same satellites.
  lemma ListRoundTrip(list: seq<Source>, t: SvType, i: Index)
    requires Masked(t) && forall s :: s in list ==> Defined(s)
    ensures ListCovers(ListOf(EncodedAll(list, CLEAR), t), t, i) <==> ListCovers(list, t, i)
  {
    ListOfCovers(EncodedAll(list, CLEAR), t, i);
    EncodedAllMeaning(list, CLEAR, t, i);
    BitOfZero(i);
  }

  // ---- the two conversions as they run ----

  // `valid` is the return value: an empty list clears the masks, any other list adds to them.
  method ConvertToGnssSvIdConfig(list: seq<Source>, config: Config) returns (result: Config, valid: bool)
    requires forall s :: s in list ==> Defined(s)
    ensures result == if list == [] then CLEAR else EncodedAll(list, config)
    ensures valid <==> list == [] || result != CLEAR
  {
    result := config;
    if list == [] {
      return CLEAR, true;
    }
    for n := 0 to |list|
      invariant forall s :: s in list[..n] ==> Defined(s)
      invariant result == EncodedAll(list[..n], config)
    {
      assert list[..n + 1][..n] == list[..n] && list[n] in list;
      result := AddSource(list[n], result);
    }
    assert list[..|list|] == list;
    valid := result[Glonass] != 0 || result[Beidou] != 0 || result[Galileo] != 0 || result[Qzss] != 0 ||
             result[Sbas] != 0 || result[Navic] != 0;
  }

  method AddSource(source: Source, config: Config) returns (result: Config)
    requires Defined(source)
    ensures result == Encoded(source, config)
  {
    result := config;
    if Masked(source.constellation) {
      var mask := AddToMask(source, config[source.constellation]);
      result := config[source.constellation := mask];
    }
  }

  method AddToMask(source: Source, svMask: bv64) returns (mask: bv64)
    requires Defined(source) && Masked(source.constellation)
    ensures mask == EncodedMask(source, svMask)
  {
    mask := svMask;
    var initialSvId, svIndexOffset := Initial(source.constellation), 0;
    if source.constellation == Sbas && source.svId != 0 {
      if SBAS_INITIAL2 <= source.svId {
        initialSvId, svIndexOffset := SBAS_INITIAL2, SBAS_LENGTH;
      } else if !(SBAS_INITIAL <= source.svId < SBAS_INITIAL + SBAS_LENGTH) {
        return;
      }
    }
    if source.svId == 0 {
      mask := ALL;
    } else if initialSvId <= source.svId < initialSvId + 64 {
      var shiftCnt := source.svId + svIndexOffset - initialSvId;
      assert ShiftOf(source) == By(shiftCnt);
      mask := mask | One(shiftCnt);
    }
  }

  method ConvertGnssSvIdMaskToList(svIdMask: bv64, initialSvId: u32, svType: SvType) returns (svIds: seq<Source>)
    requires initialSvId < 1000
    ensures svIds == MaskList(svIdMask, initialSvId, svType)
  {
    if svIdMask == ALL {
      return [Source(svType, 0)];
    }
    WholeFits(svIdMask);
    svIds := [];
    var mask, bitNumber := svIdMask, 0;
    ghost var all := Bits(svIdMask, 0, initialSvId, svType);
    while mask > 0
      invariant Fits(mask, bitNumber)
      invariant svIds + Bits(mask, bitNumber, initialSvId, svType) == all
      decreases mask
    {
      BitsStep(mask, mask >> 1, bitNumber, initialSvId, svType, svIds, all);
      if mask & 1 == 1 {
        var svId := bitNumber + initialSvId;
        if svType == Sbas && SBAS_LENGTH <= bitNumber {
          svId := bitNumber - SBAS_LENGTH + SBAS_INITIAL2;
        }
        svIds := svIds + [Source(svType, svId)];
      }
      bitNumber := bitNumber + 1;
      mask := mask >> 1;
    }
  }

  method ConvertType(svIdMask: bv64, t: SvType) returns (svIds: seq<Source>)
    requires Masked(t)
    ensures svIds == TypeList(svIdMask, t)
  {
    svIds := [];
    if svIdMask != 0 {
      if t == Sbas {
        var low := ConvertGnssSvIdMaskToList(Low39(svIdMask), SBAS_INITIAL, Sbas);
        var high := ConvertGnssSvIdMaskToList(From39(svIdMask), SBAS_INITIAL2, Sbas);
        svIds := low + high;
      } else {
        svIds := ConvertGnssSvIdMaskToList(svIdMask, Initial(t), t);
      }
    }
  }

  method ConvertFromGnssSvIdConfig(c: Config) returns (list: seq<Source>)
    ensures list == Decoded(c)
  {
    var bds := ConvertType(c[Beidou], Beidou);
    var gal := ConvertType(c[Galileo], Galileo);
    var glo := ConvertType(c[Glonass], Glonass);
    var qzss := ConvertType(c[Qzss], Qzss);
    var sbas := ConvertType(c[Sbas], Sbas);
    var navic := ConvertType(c[Navic], Navic);
    list := bds + gal + glo + qzss + sbas + navic;
  }
}
