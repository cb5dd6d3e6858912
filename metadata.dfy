/**
 * The label dictionary (`MetaManager`): the monji (single-kanji markers)
 * and tango (two-kanji words) read from the application's meta file, and
 * the read-only lookups the tracker and the renderer make in it. Every
 * lookup is a first-match linear search with a sentinel result.
 */
module MetaData {
  import opened Basics

  /** One entry of the "monji" list: a marker id and its kanji with its two readings. */
  datatype Monji = Monji(id: int, kanji: string, onyomi: string, kunyomi: string)

  /** One entry of the "tango" list; its id encodes the two monji ids as 10 * id1 + id2. */
  datatype Tango = Tango(id: int)

  /** The exceptions `getModelById` can raise. */
  datatype ModelError = InvalidArgument | OutOfRange

  datatype Result<T> = Ok(value: T) | Err(error: ModelError)

  /** The dictionary; `M` is the loaded 3D model, opaque here. */
  datatype MetaManager<M> = MetaManager(monjis: seq<Monji>, tangos: seq<Tango>, modelMap: map<int, M>)

  // ---------------------------------------------------------------------
  // First-match searches (the shared loop of every lookup)
  // ---------------------------------------------------------------------

  /** Monji `i` is the first whose kanji occurs in `text`. */
  predicate FirstKanjiMatch(monjis: seq<Monji>, text: string, i: int) {
    0 <= i < |monjis| && Contains(text, monjis[i].kanji)
    && forall j :: 0 <= j < i ==> !Contains(text, monjis[j].kanji)
  }

  /** Monji `i` is the first with the given id. */
  predicate FirstIdMatch(monjis: seq<Monji>, id: int, i: int) {
    0 <= i < |monjis| && monjis[i].id == id && forall j :: 0 <= j < i ==> monjis[j].id != id
  }

  /** Tango `i` is the first whose id encodes (id1, id2). */
  predicate FirstTangoMatch(tangos: seq<Tango>, id1: int, id2: int, i: int) {
    0 <= i < |tangos| && Encodes(tangos[i].id, id1, id2)
    && forall j :: 0 <= j < i ==> !Encodes(tangos[j].id, id1, id2)
  }

  /** Index of the first monji whose kanji occurs in `text`, or -1 (see
      `IndexOfKanjiIsFirstMatch`). */
  function IndexOfKanjiIn(monjis: seq<Monji>, text: string): (k: int)
    ensures -1 <= k < |monjis|
  {
    if |monjis| == 0 then -1
    else if Contains(text, monjis[0].kanji) then 0
    else
      var k := IndexOfKanjiIn(monjis[1..], text);
      if k == -1 then -1 else k + 1
  }

  /** The kanji search answers the first match, and -1 only when nothing matches. */
  lemma {:induction false} IndexOfKanjiIsFirstMatch(monjis: seq<Monji>, text: string)
    ensures var k := IndexOfKanjiIn(monjis, text);
            (k >= 0 ==> FirstKanjiMatch(monjis, text, k))
            && (k == -1 ==> forall j :: 0 <= j < |monjis| ==> !Contains(text, monjis[j].kanji))
    decreases |monjis|
  {
    if |monjis| > 0 && !Contains(text, monjis[0].kanji) {
      IndexOfKanjiIsFirstMatch(monjis[1..], text);
      assert forall j :: 1 <= j < |monjis| ==> monjis[j] == monjis[1..][j - 1];
    }
  }

  /** Index of the first monji with the given id, or -1 (see `IndexOfIdIsFirstMatch`). */
  function IndexOfId(monjis: seq<Monji>, id: int): (k: int)
    ensures -1 <= k < |monjis|
  {
    if |monjis| == 0 then -1
    else if monjis[0].id == id then 0
    else
      var k := IndexOfId(monjis[1..], id);
      if k == -1 then -1 else k + 1
  }

  /** The id search answers the first match, and -1 only when no monji has the id. */
  lemma {:induction false} IndexOfIdIsFirstMatch(monjis: seq<Monji>, id: int)
    ensures var k := IndexOfId(monjis, id);
            (k >= 0 ==> FirstIdMatch(monjis, id, k))
            && (k == -1 ==> forall j :: 0 <= j < |monjis| ==> monjis[j].id != id)
    decreases |monjis|
  {
    if |monjis| > 0 && monjis[0].id != id {
      IndexOfIdIsFirstMatch(monjis[1..], id);
      assert forall j :: 1 <= j < |monjis| ==> monjis[j] == monjis[1..][j - 1];
    }
  }

  /** The tango id `t` stands for the monji pair (id1, id2), with C++ truncating `/` and `%`. */
  predicate Encodes(t: int, id1: int, id2: int) {
    TruncDiv(t, 10) == id1 && TruncMod(t, 10) == id2
  }

  /** Index of the first tango whose id encodes (id1, id2), or -1 (what that index means is
      stated by `IndexOfTangoIsFirstMatch`, so that callers do not carry it). */
  function IndexOfTango(tangos: seq<Tango>, id1: int, id2: int): (k: int)
    ensures -1 <= k < |tangos|
  {
    if |tangos| == 0 then -1
    else if Encodes(tangos[0].id, id1, id2) then 0
    else
      var k := IndexOfTango(tangos[1..], id1, id2);
      if k == -1 then -1 else k + 1
  }

  /** The tango search answers the first match, and -1 only when nothing matches. */
  lemma {:induction false} IndexOfTangoIsFirstMatch(tangos: seq<Tango>, id1: int, id2: int)
    ensures var k := IndexOfTango(tangos, id1, id2);
            (k >= 0 ==> FirstTangoMatch(tangos, id1, id2, k))
            && (k == -1 ==> forall j :: 0 <= j < |tangos| ==> !Encodes(tangos[j].id, id1, id2))
    decreases |tangos|
  {
    if |tangos| > 0 && !Encodes(tangos[0].id, id1, id2) {
      IndexOfTangoIsFirstMatch(tangos[1..], id1, id2);
      assert forall j :: 1 <= j < |tangos| ==> tangos[j] == tangos[1..][j - 1];
    }
  }

  // ---------------------------------------------------------------------
  // The lookups
  // ---------------------------------------------------------------------

  /** `getIdByKanji`: the id of the first monji whose kanji occurs in the argument, else -1
      (see `GetIdByKanjiFindsFirstMatch`). */
  function GetIdByKanji(monjis: seq<Monji>, kanji: string): int {
    var k := IndexOfKanjiIn(monjis, kanji);
    if k == -1 then -1 else monjis[k].id
  }

  /** `getKanjiById`: the kanji of the first monji with that id, else "". */
  function GetKanjiById(monjis: seq<Monji>, id: int): string {
    var k := IndexOfId(monjis, id);
    if k == -1 then "" else monjis[k].kanji
  }

  /** `getOnyomiById`: the on-reading of the first monji with that id, else "". */
  function GetOnyomiById(monjis: seq<Monji>, id: int): string {
    var k := IndexOfId(monjis, id);
    if k == -1 then "" else monjis[k].onyomi
  }

  /** `getKunyomiById`: the kun-reading of the first monji with that id, else "". */
  function GetKunyomiById(monjis: seq<Monji>, id: int): string {
    var k := IndexOfId(monjis, id);
    if k == -1 then "" else monjis[k].kunyomi
  }

  /** `getTangoId`: the id of the first tango that encodes (id1, id2), else -1 (see
      `GetTangoIdFindsFirstMatch`). */
  function GetTangoId(tangos: seq<Tango>, id1: int, id2: int): int {
    var k := IndexOfTango(tangos, id1, id2);
    if k == -1 then -1 else tangos[k].id
  }

  /** `getModelById(int)`: a negative id raises `invalid_argument` before the map is
      consulted; `modelMap.at` raises `out_of_range` for an id without a model. A caller that
      holds a non-negative id of a loaded model gets exactly that model back. */
  function GetModelById<M>(meta: MetaManager<M>, id: int): (r: Result<M>)
    ensures id < 0 ==> r == Err(InvalidArgument)
    ensures 0 <= id && id in meta.modelMap ==> r == Ok(meta.modelMap[id])
    ensures 0 <= id && id !in meta.modelMap ==> r == Err(OutOfRange)
  {
    if id < 0 then Err(InvalidArgument)
    else if id in meta.modelMap then Ok(meta.modelMap[id])
    else Err(OutOfRange)
  }

  /** `getModelByKanji`: the model of the monji found by `getIdByKanji`. */
  function GetModelByKanji<M>(meta: MetaManager<M>, kanji: string): Result<M> {
    GetModelById(meta, GetIdByKanji(meta.monjis, kanji))
  }

  // ---------------------------------------------------------------------
  // Properties of the lookups
  // ---------------------------------------------------------------------

  /** A kanji that matches no monji has no model: the -1 sentinel is rejected as a negative id,
      even when the model map has an entry for -1. */
  lemma UnknownKanjiHasNoModel<M>(meta: MetaManager<M>, kanji: string)
    requires forall j :: 0 <= j < |meta.monjis| ==> !Contains(kanji, meta.monjis[j].kanji)
    ensures GetModelByKanji(meta, kanji) == Err(InvalidArgument)
  {
    GetIdByKanjiFindsFirstMatch(meta.monjis, kanji);
  }

  /** `getIdByKanji` answers -1 when no monji's kanji occurs in the argument, and otherwise the
      id of the first monji whose kanji does. */
  lemma GetIdByKanjiFindsFirstMatch(monjis: seq<Monji>, kanji: string)
    ensures (forall j :: 0 <= j < |monjis| ==> !Contains(kanji, monjis[j].kanji)) ==> GetIdByKanji(monjis, kanji) == -1
    ensures forall i :: FirstKanjiMatch(monjis, kanji, i) ==> GetIdByKanji(monjis, kanji) == monjis[i].id
  {
    IndexOfKanjiIsFirstMatch(monjis, kanji);
  }

  /** The three by-id lookups answer "" for an unknown id, and otherwise the kanji and the
      readings of the first monji with that id. */
  lemma ByIdLookupsFindFirstMatch(monjis: seq<Monji>, id: int)
    ensures (forall j :: 0 <= j < |monjis| ==> monjis[j].id != id) ==>
              GetKanjiById(monjis, id) == "" && GetOnyomiById(monjis, id) == "" && GetKunyomiById(monjis, id) == ""
    ensures forall i :: FirstIdMatch(monjis, id, i) ==>
              GetKanjiById(monjis, id) == monjis[i].kanji && GetOnyomiById(monjis, id) == monjis[i].onyomi
              && GetKunyomiById(monjis, id) == monjis[i].kunyomi
  {
    IndexOfIdIsFirstMatch(monjis, id);
  }

  /** `getTangoId` answers -1 when no tango encodes the pair, and otherwise the id of the first
      tango that does. */
  lemma GetTangoIdFindsFirstMatch(tangos: seq<Tango>, id1: int, id2: int)
    ensures (forall j :: 0 <= j < |tangos| ==> !Encodes(tangos[j].id, id1, id2)) ==> GetTangoId(tangos, id1, id2) == -1
    ensures forall i :: FirstTangoMatch(tangos, id1, id2, i) ==> GetTangoId(tangos, id1, id2) == tangos[i].id
  {
    IndexOfTangoIsFirstMatch(tangos, id1, id2);
  }

  /** Whatever `getTangoId` answers other than -1 is exactly the two-digit code 10 * id1 + id2
      (C++ division identity), and it decodes back to (id1, id2). */
  lemma TangoIdIsPairCode(tangos: seq<Tango>, id1: int, id2: int)
    ensures var r := GetTangoId(tangos, id1, id2);
            r == -1 || (r == 10 * id1 + id2 && Encodes(r, id1, id2))
  {
    var k := IndexOfTango(tangos, id1, id2);
    IndexOfTangoIsFirstMatch(tangos, id1, id2);
    if k >= 0 {
      TruncDivMod10(tangos[k].id);
    }
  }

  /** With non-negative tango ids, no pair whose second id is not a single digit has a tango. */
  lemma NoTangoForWideSecondId(tangos: seq<Tango>, id1: int, id2: int)
    requires forall j :: 0 <= j < |tangos| ==> tangos[j].id >= 0
    requires id2 < 0 || id2 > 9
    ensures GetTangoId(tangos, id1, id2) == -1
  {
    forall j | 0 <= j < |tangos|
      ensures !Encodes(tangos[j].id, id1, id2)
    {
      TruncDivMod10(tangos[j].id);
    }
    GetTangoIdFindsFirstMatch(tangos, id1, id2);
  }

  /** For non-negative monji ids with a one-digit second id, the tango 10 * id1 + id2 is found
      whenever the dictionary lists it. */
  lemma EncodedTangoIsFound(tangos: seq<Tango>, id1: int, id2: int, i: int)
    requires 0 <= id1 && 0 <= id2 <= 9
    requires 0 <= i < |tangos| && tangos[i].id == 10 * id1 + id2
    ensures GetTangoId(tangos, id1, id2) == 10 * id1 + id2
  {
    assert Encodes(tangos[i].id, id1, id2);
    IndexOfTangoIsFirstMatch(tangos, id1, id2);
    TangoIdIsPairCode(tangos, id1, id2);
  }
}
