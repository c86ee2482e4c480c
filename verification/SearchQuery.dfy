/** The query builder of `CardReferenceRepository.search`
    (src/automana/core/repositories/card_catalog/card_repository.py). It grows two numbered
    condition lists side by side, one of them without the rarity filter, and sends prefixes
    of the other to further queries. What a condition means for a row and a bound value is
    left uninterpreted. */
module SearchQuery {
  import opened Options

  // ---------------------------------------------------------------- filters

  datatype Filters = Filters(
    name: Option<string>, colors: seq<string>, rarity: Option<string>, setName: Option<string>,
    setCode: Option<string>, uniqueCardId: Option<string>, manaCost: Option<int>, digital: Option<bool>,
    releasedAfter: Option<string>, releasedBefore: Option<string>, cardType: Option<string>,
    finish: Option<string>, frameEffects: seq<string>, oracleText: Option<string>, artist: Option<string>,
    format: Option<string>, layout: Option<string>, promoType: seq<string>,
    upper: string -> string)   // Python's `str.upper`

  datatype Kind =
    | NameLike | HasColor | MultiColor | RarityLike | SetNameLike | SetCodeIs | UniqueCardIs | ManaCostIs
    | DigitalIs | ReleasedAfter | ReleasedBefore | HasType | HasFinish | HasFrameEffect | OracleMatches
    | ArtistIs | LegalIn | LayoutIs | NotToken | AnyPromoType

  datatype Value = Text(s: string) | Number(n: int) | Flag(b: bool) | Texts(ss: seq<string>)

  /** A filter in force and the value it binds, if any. */
  datatype Pred = Pred(kind: Kind, bound: Option<Value>)

  /** None and the empty string are both no filter. */
  predicate Given(o: Option<string>) {
    o.Some? && o.value != ""
  }

  lemma GivenIsNotEmpty(o: Option<string>)
    ensures Given(o) <==> o.Some? && |o.value| > 0
  {
  }

  function Like(s: string): string {
    "%" + s + "%"
  }

  function IfGiven(k: Kind, o: Option<string>): seq<Pred> {
    if Given(o) then [Pred(k, Some(Text(o.value)))] else []
  }

  function ColorPred(c: string): Pred {
    if c == "Multi" then Pred(MultiColor, None) else Pred(HasColor, Some(Text(c)))
  }

  function FramePred(fe: string): Pred {
    Pred(HasFrameEffect, Some(Text(fe)))
  }

  /** A predicate for each item of a list. */
  function PredsOf(make: string -> Pred, xs: seq<string>): seq<Pred> {
    if xs == [] then [] else PredsOf(make, xs[..|xs| - 1]) + [make(xs[|xs| - 1])]
  }

  function ColorPreds(cs: seq<string>): seq<Pred> {
    PredsOf(ColorPred, cs)
  }

  function FramePreds(fs: seq<string>): seq<Pred> {
    PredsOf(FramePred, fs)
  }

  function BeforeRarity(f: Filters): seq<Pred> {
    IfGiven(NameLike, f.name) + ColorPreds(f.colors)
  }

  function RarityPreds(f: Filters): seq<Pred> {
    if Given(f.rarity) then [Pred(RarityLike, Some(Text(Like(f.rarity.value))))] else []
  }

  function SetNamePreds(f: Filters): seq<Pred> {
    if Given(f.setName) then [Pred(SetNameLike, Some(Text(Like(f.setName.value))))] else []
  }

  function UniqueCardPreds(f: Filters): seq<Pred> {
    if f.uniqueCardId.Some? then [Pred(UniqueCardIs, Some(Text(f.uniqueCardId.value)))] else []
  }

  function SetPreds(f: Filters): seq<Pred> {
    SetNamePreds(f) + IfGiven(SetCodeIs, f.setCode) + UniqueCardPreds(f)
  }

  function ManaPreds(f: Filters): seq<Pred> {
    if f.manaCost.Some? then [Pred(ManaCostIs, Some(Number(f.manaCost.value)))] else []
  }

  function DigitalPreds(f: Filters): seq<Pred> {
    if f.digital.Some? then [Pred(DigitalIs, Some(Flag(f.digital.value)))] else []
  }

  function PrintPreds(f: Filters): seq<Pred> {
    ManaPreds(f) + DigitalPreds(f) + IfGiven(ReleasedAfter, f.releasedAfter) + IfGiven(ReleasedBefore, f.releasedBefore)
  }

  function FinishPreds(f: Filters): seq<Pred> {
    if Given(f.finish) then [Pred(HasFinish, Some(Text(f.upper(f.finish.value))))] else []
  }

  function LookPreds(f: Filters): seq<Pred> {
    IfGiven(HasType, f.cardType) + FinishPreds(f) + FramePreds(f.frameEffects)
  }

  function BeforeOracle(f: Filters): seq<Pred> {
    BeforeRarity(f) + RarityPreds(f) + SetPreds(f) + PrintPreds(f) + LookPreds(f)
  }

  function LayoutPreds(f: Filters): seq<Pred> {
    if Given(f.layout) then [Pred(LayoutIs, Some(Text(f.layout.value)))] else [Pred(NotToken, None)]
  }

  function AfterOracle(f: Filters): seq<Pred> {
    IfGiven(ArtistIs, f.artist) + IfGiven(LegalIn, f.format) + LayoutPreds(f)
  }

  function BeforePromo(f: Filters): seq<Pred> {
    BeforeOracle(f) + IfGiven(OracleMatches, f.oracleText) + AfterOracle(f)
  }

  function PromoTypePreds(promoType: seq<string>): seq<Pred> {
    if promoType != [] then [Pred(AnyPromoType, Some(Texts(promoType)))] else []
  }

  function PromoPreds(f: Filters): seq<Pred> {
    PromoTypePreds(f.promoType)
  }

  /** Every filter in force, in the order the source adds them. */
  function Active(f: Filters): seq<Pred> {
    BeforePromo(f) + PromoPreds(f)
  }

  function NonRarity(ps: seq<Pred>): seq<Pred> {
    if ps == [] then []
    else NonRarity(ps[..|ps| - 1]) + if ps[|ps| - 1].kind.RarityLike? then [] else [ps[|ps| - 1]]
  }

  // ---------------------------------------------------------------- numbered conditions

  /** A condition of the WHERE clause with the number of its placeholder, if it has one. */
  datatype Cond = Cond(kind: Kind, slot: Option<nat>)

  function Binds(ps: seq<Pred>): seq<Value> {
    if ps == [] then []
    else Binds(ps[..|ps| - 1]) + if ps[|ps| - 1].bound.Some? then [ps[|ps| - 1].bound.value] else []
  }

  function Render(ps: seq<Pred>): (cs: seq<Cond>)
    ensures |cs| == |ps|
  {
    if ps == [] then []
    else
      var front, p := ps[..|ps| - 1], ps[|ps| - 1];
      Render(front) + [Cond(p.kind, if p.bound.Some? then Some(|Binds(front)| + 1) else None)]
  }

  /** The placeholder numbers of a WHERE clause, left to right. */
  function Slots(cs: seq<Cond>): seq<nat> {
    if cs == [] then []
    else Slots(cs[..|cs| - 1]) + if cs[|cs| - 1].slot.Some? then [cs[|cs| - 1].slot.value] else []
  }

  function OneTo(n: nat): seq<nat> {
    seq(n, i requires 0 <= i => i + 1)
  }

  lemma Snoc<T>(s: seq<T>, x: T)
    ensures (s + [x])[..|s + [x]| - 1] == s
  {
  }

  /** The conditions use exactly the placeholders 1 to n of their n values, in order. */
  lemma {:induction false} SlotsAreOneToN(ps: seq<Pred>)
    ensures Slots(Render(ps)) == OneTo(|Binds(ps)|)
  {
    if ps != [] {
      SlotsAreOneToN(ps[..|ps| - 1]);
      var front := ps[..|ps| - 1];
      Snoc(Render(front), Render(ps)[|ps| - 1]);
      assert OneTo(|Binds(front)| + 1) == OneTo(|Binds(front)|) + [|Binds(front)| + 1];
    }
  }

  lemma {:induction false} RenderPrefix(a: seq<Pred>, b: seq<Pred>)
    ensures Render(a + b)[..|a|] == Render(a)
    ensures Binds(a) <= Binds(a + b)
  {
    if b == [] {
      assert a + b == a;
    } else {
      assert (a + b)[..|a + b| - 1] == a + b[..|b| - 1];
      RenderPrefix(a, b[..|b| - 1]);
    }
  }

  // ---------------------------------------------------------------- what they mean

  /** Whether a row satisfies a filter: given by the database. */
  type Sem<!R> = (Kind, Option<Value>, R) -> bool

  ghost predicate AllHold<R>(sem: Sem<R>, ps: seq<Pred>, row: R) {
    ps == [] || (AllHold(sem, ps[..|ps| - 1], row) && sem(ps[|ps| - 1].kind, ps[|ps| - 1].bound, row))
  }

  /** The WHERE clause under the values sent with it; a missing placeholder value is an error. */
  ghost predicate Where<R>(sem: Sem<R>, cs: seq<Cond>, sent: seq<Value>, row: R) {
    cs == [] ||
      var c := cs[|cs| - 1];
      && Where(sem, cs[..|cs| - 1], sent, row)
      && (c.slot.None? ==> sem(c.kind, None, row))
      && (c.slot.Some? ==> 1 <= c.slot.value <= |sent| && sem(c.kind, Some(sent[c.slot.value - 1]), row))
  }

  lemma {:induction false} RenderMeans<R>(sem: Sem<R>, ps: seq<Pred>, sent: seq<Value>, row: R)
    requires Binds(ps) <= sent
    ensures Where(sem, Render(ps), sent, row) <==> AllHold(sem, ps, row)
  {
    if ps != [] {
      var front := ps[..|ps| - 1];
      RenderMeans(sem, front, sent, row);
      Snoc(Render(front), Render(ps)[|ps| - 1]);
    }
  }

  lemma {:induction false} AllHoldSplits<R>(sem: Sem<R>, a: seq<Pred>, b: seq<Pred>, row: R)
    ensures AllHold(sem, a + b, row) <==> AllHold(sem, a, row) && AllHold(sem, b, row)
  {
    if b == [] {
      assert a + b == a;
    } else {
      assert (a + b)[..|a + b| - 1] == a + b[..|b| - 1];
      AllHoldSplits(sem, a, b[..|b| - 1], row);
    }
  }

  // The reference meaning: each filter of the call on its own, no lists and no numbers.

  ghost predicate TextHolds<R>(sem: Sem<R>, k: Kind, o: Option<string>, row: R) {
    Given(o) ==> sem(k, Some(Text(o.value)), row)
  }

  ghost predicate ColorHolds<R>(sem: Sem<R>, c: string, row: R) {
    if c == "Multi" then sem(MultiColor, None, row) else sem(HasColor, Some(Text(c)), row)
  }

  ghost predicate FrameHolds<R>(sem: Sem<R>, fe: string, row: R) {
    sem(HasFrameEffect, Some(Text(fe)), row)
  }

  ghost predicate MatchesBeforeRarity<R>(sem: Sem<R>, f: Filters, row: R) {
    && TextHolds(sem, NameLike, f.name, row)
    && (forall i :: 0 <= i < |f.colors| ==> ColorHolds(sem, f.colors[i], row))
  }

  ghost predicate MatchesRarity<R>(sem: Sem<R>, f: Filters, row: R) {
    Given(f.rarity) ==> sem(RarityLike, Some(Text("%" + f.rarity.value + "%")), row)
  }

  ghost predicate MatchesSet<R>(sem: Sem<R>, f: Filters, row: R) {
    && (Given(f.setName) ==> sem(SetNameLike, Some(Text("%" + f.setName.value + "%")), row))
    && TextHolds(sem, SetCodeIs, f.setCode, row)
    && (f.uniqueCardId.Some? ==> sem(UniqueCardIs, Some(Text(f.uniqueCardId.value)), row))
  }

  ghost predicate MatchesPrint<R>(sem: Sem<R>, f: Filters, row: R) {
    && (f.manaCost.Some? ==> sem(ManaCostIs, Some(Number(f.manaCost.value)), row))
    && (f.digital.Some? ==> sem(DigitalIs, Some(Flag(f.digital.value)), row))
    && TextHolds(sem, ReleasedAfter, f.releasedAfter, row)
    && TextHolds(sem, ReleasedBefore, f.releasedBefore, row)
  }

  ghost predicate MatchesLook<R>(sem: Sem<R>, f: Filters, row: R) {
    && TextHolds(sem, HasType, f.cardType, row)
    && (Given(f.finish) ==> sem(HasFinish, Some(Text(f.upper(f.finish.value))), row))
    && (forall i :: 0 <= i < |f.frameEffects| ==> FrameHolds(sem, f.frameEffects[i], row))
  }

  ghost predicate MatchesRest<R>(sem: Sem<R>, f: Filters, row: R) {
    && TextHolds(sem, OracleMatches, f.oracleText, row)
    && TextHolds(sem, ArtistIs, f.artist, row)
    && TextHolds(sem, LegalIn, f.format, row)
    && (if Given(f.layout) then sem(LayoutIs, Some(Text(f.layout.value)), row) else sem(NotToken, None, row))
  }

  ghost predicate MatchesPromo<R>(sem: Sem<R>, f: Filters, row: R) {
    f.promoType != [] ==> sem(AnyPromoType, Some(Texts(f.promoType)), row)
  }

  ghost predicate MatchesBase<R>(sem: Sem<R>, f: Filters, row: R) {
    && MatchesBeforeRarity(sem, f, row) && MatchesSet(sem, f, row) && MatchesPrint(sem, f, row)
    && MatchesLook(sem, f, row) && MatchesRest(sem, f, row)
  }

  lemma Single<R>(sem: Sem<R>, p: Pred, row: R)
    ensures AllHold(sem, [p], row) <==> sem(p.kind, p.bound, row)
    ensures AllHold(sem, [], row)
  {
  }

  lemma AllHoldSnoc<R>(sem: Sem<R>, ps: seq<Pred>, p: Pred, row: R)
    ensures AllHold(sem, ps + [p], row) <==> AllHold(sem, ps, row) && sem(p.kind, p.bound, row)
  {
    Snoc(ps, p);
  }

  ghost predicate Holds<R>(sem: Sem<R>, p: Pred, row: R) {
    sem(p.kind, p.bound, row)
  }

  lemma {:induction false} PredsOfMean<R>(sem: Sem<R>, make: string -> Pred, xs: seq<string>, row: R)
    ensures AllHold(sem, PredsOf(make, xs), row) <==> forall i :: 0 <= i < |xs| ==> Holds(sem, make(xs[i]), row)
  {
    if xs != [] {
      var front, x := xs[..|xs| - 1], xs[|xs| - 1];
      PredsOfMean(sem, make, front, row);
      AllHoldSnoc(sem, PredsOf(make, front), make(x), row);
      assert forall i :: 0 <= i < |front| ==> front[i] == xs[i];
    }
  }

  lemma ColorsMean<R>(sem: Sem<R>, cs: seq<string>, row: R)
    ensures AllHold(sem, ColorPreds(cs), row) <==> forall i :: 0 <= i < |cs| ==> ColorHolds(sem, cs[i], row)
  {
    PredsOfMean(sem, ColorPred, cs, row);
    forall i | 0 <= i < |cs| ensures ColorHolds(sem, cs[i], row) <==> Holds(sem, ColorPred(cs[i]), row) {
    }
  }

  lemma FramesMean<R>(sem: Sem<R>, fs: seq<string>, row: R)
    ensures AllHold(sem, FramePreds(fs), row) <==> forall i :: 0 <= i < |fs| ==> FrameHolds(sem, fs[i], row)
  {
    PredsOfMean(sem, FramePred, fs, row);
    forall i | 0 <= i < |fs| ensures FrameHolds(sem, fs[i], row) <==> Holds(sem, FramePred(fs[i]), row) {
    }
  }

  lemma Splits3<R>(sem: Sem<R>, a: seq<Pred>, b: seq<Pred>, c: seq<Pred>, row: R)
    ensures AllHold(sem, a + b + c, row) <==> AllHold(sem, a, row) && AllHold(sem, b, row) && AllHold(sem, c, row)
  {
    AllHoldSplits(sem, a + b, c, row);
    AllHoldSplits(sem, a, b, row);
  }

  lemma Splits5<R>(sem: Sem<R>, a: seq<Pred>, b: seq<Pred>, c: seq<Pred>, d: seq<Pred>, e: seq<Pred>, row: R)
    ensures AllHold(sem, a + b + c + d + e, row) <==>
      && AllHold(sem, a, row) && AllHold(sem, b, row) && AllHold(sem, c, row)
      && AllHold(sem, d, row) && AllHold(sem, e, row)
  {
    Splits3(sem, a + b + c, d, e, row);
    Splits3(sem, a, b, c, row);
  }

  lemma IfGivenMeans<R>(sem: Sem<R>, k: Kind, o: Option<string>, row: R)
    ensures AllHold(sem, IfGiven(k, o), row) <==> TextHolds(sem, k, o, row)
  {
    if Given(o) {
      Single(sem, Pred(k, Some(Text(o.value))), row);
    }
  }

  lemma BeforeRarityMeans<R>(sem: Sem<R>, f: Filters, row: R)
    ensures AllHold(sem, BeforeRarity(f), row) <==> MatchesBeforeRarity(sem, f, row)
  {
    AllHoldSplits(sem, IfGiven(NameLike, f.name), ColorPreds(f.colors), row);
    IfGivenMeans(sem, NameLike, f.name, row);
    ColorsMean(sem, f.colors, row);
  }

  lemma SetMeans<R>(sem: Sem<R>, f: Filters, row: R)
    ensures AllHold(sem, SetPreds(f), row) <==> MatchesSet(sem, f, row)
  {
    var a, c := SetNamePreds(f), UniqueCardPreds(f);
    Splits3(sem, a, IfGiven(SetCodeIs, f.setCode), c, row);
    IfGivenMeans(sem, SetCodeIs, f.setCode, row);
    if a != [] { Single(sem, a[0], row); }
    if c != [] { Single(sem, c[0], row); }
  }

  lemma PrintMeans<R>(sem: Sem<R>, f: Filters, row: R)
    ensures AllHold(sem, PrintPreds(f), row) <==> MatchesPrint(sem, f, row)
  {
    var a, b := ManaPreds(f), DigitalPreds(f);
    Splits3(sem, a + b, IfGiven(ReleasedAfter, f.releasedAfter), IfGiven(ReleasedBefore, f.releasedBefore), row);
    AllHoldSplits(sem, a, b, row);
    IfGivenMeans(sem, ReleasedAfter, f.releasedAfter, row);
    IfGivenMeans(sem, ReleasedBefore, f.releasedBefore, row);
    if a != [] { Single(sem, a[0], row); }
    if b != [] { Single(sem, b[0], row); }
  }

  lemma LookMeans<R>(sem: Sem<R>, f: Filters, row: R)
    ensures AllHold(sem, LookPreds(f), row) <==> MatchesLook(sem, f, row)
  {
    var b := FinishPreds(f);
    Splits3(sem, IfGiven(HasType, f.cardType), b, FramePreds(f.frameEffects), row);
    IfGivenMeans(sem, HasType, f.cardType, row);
    FramesMean(sem, f.frameEffects, row);
    if b != [] { Single(sem, b[0], row); }
  }

  /** What the source adds with and behind the oracle text filter. */
  function FromOracle(f: Filters): seq<Pred> {
    IfGiven(OracleMatches, f.oracleText) + AfterOracle(f)
  }

  lemma RestMeans<R>(sem: Sem<R>, f: Filters, row: R)
    ensures AllHold(sem, FromOracle(f), row) <==> MatchesRest(sem, f, row)
  {
    var c := LayoutPreds(f);
    AllHoldSplits(sem, IfGiven(OracleMatches, f.oracleText), AfterOracle(f), row);
    Splits3(sem, IfGiven(ArtistIs, f.artist), IfGiven(LegalIn, f.format), c, row);
    IfGivenMeans(sem, OracleMatches, f.oracleText, row);
    IfGivenMeans(sem, ArtistIs, f.artist, row);
    IfGivenMeans(sem, LegalIn, f.format, row);
    Single(sem, c[0], row);
  }

  lemma RarityAndPromoMean<R>(sem: Sem<R>, f: Filters, row: R)
    ensures AllHold(sem, RarityPreds(f), row) <==> MatchesRarity(sem, f, row)
    ensures AllHold(sem, PromoPreds(f), row) <==> MatchesPromo(sem, f, row)
  {
    if RarityPreds(f) != [] { Single(sem, RarityPreds(f)[0], row); }
    if PromoPreds(f) != [] { Single(sem, PromoPreds(f)[0], row); }
  }

  lemma Splits6<R>(
      sem: Sem<R>, a: seq<Pred>, b: seq<Pred>, c: seq<Pred>, d: seq<Pred>, e: seq<Pred>, r: seq<Pred>, row: R)
    ensures AllHold(sem, a + b + c + d + e + r, row) <==>
      && AllHold(sem, a, row) && AllHold(sem, b, row) && AllHold(sem, c, row)
      && AllHold(sem, d, row) && AllHold(sem, e, row) && AllHold(sem, r, row)
  {
    AllHoldSplits(sem, a + b + c + d + e, r, row);
    Splits5(sem, a, b, c, d, e, row);
  }

  lemma Assoc(a: seq<Pred>, b: seq<Pred>, c: seq<Pred>)
    ensures a + b + c == a + (b + c)
  {
  }

  lemma BeforePromoParts(f: Filters)
    ensures BeforePromo(f) ==
      BeforeRarity(f) + RarityPreds(f) + SetPreds(f) + PrintPreds(f) + LookPreds(f) + FromOracle(f)
  {
    Assoc(BeforeOracle(f), IfGiven(OracleMatches, f.oracleText), AfterOracle(f));
  }

  lemma PartsMean<R>(sem: Sem<R>, f: Filters, row: R)
    ensures AllHold(sem, BeforeRarity(f), row) <==> MatchesBeforeRarity(sem, f, row)
    ensures AllHold(sem, SetPreds(f), row) <==> MatchesSet(sem, f, row)
    ensures AllHold(sem, PrintPreds(f), row) <==> MatchesPrint(sem, f, row)
    ensures AllHold(sem, LookPreds(f), row) <==> MatchesLook(sem, f, row)
    ensures AllHold(sem, FromOracle(f), row) <==> MatchesRest(sem, f, row)
  {
    BeforeRarityMeans(sem, f, row);
    SetMeans(sem, f, row);
    PrintMeans(sem, f, row);
    LookMeans(sem, f, row);
    RestMeans(sem, f, row);
  }

  lemma BaseMeans<R>(sem: Sem<R>, f: Filters, row: R)
    ensures MatchesBase(sem, f, row) <==>
      && AllHold(sem, BeforeRarity(f), row) && AllHold(sem, SetPreds(f), row) && AllHold(sem, PrintPreds(f), row)
      && AllHold(sem, LookPreds(f), row) && AllHold(sem, FromOracle(f), row)
  {
    PartsMean(sem, f, row);
  }

  /** All filters but promo_type. */
  lemma BeforePromoMeans<R>(sem: Sem<R>, f: Filters, row: R)
    ensures AllHold(sem, BeforePromo(f), row) <==> MatchesBase(sem, f, row) && MatchesRarity(sem, f, row)
  {
    BeforePromoParts(f);
    var a, r, s, p := BeforeRarity(f), RarityPreds(f), SetPreds(f), PrintPreds(f);
    Splits6(sem, a, r, s, p, LookPreds(f), FromOracle(f), row);
    BaseMeans(sem, f, row);
    RarityAndPromoMean(sem, f, row);
  }

  lemma {:induction false} NonRaritySplits(a: seq<Pred>, b: seq<Pred>)
    ensures NonRarity(a + b) == NonRarity(a) + NonRarity(b)
  {
    if b == [] {
      assert a + b == a;
    } else {
      assert (a + b)[..|a + b| - 1] == a + b[..|b| - 1];
      NonRaritySplits(a, b[..|b| - 1]);
    }
  }

  /** A list without a rarity predicate. */
  ghost predicate Free(ps: seq<Pred>) {
    forall p :: p in ps ==> !p.kind.RarityLike?
  }

  lemma {:induction false} FreeKeepsAll(ps: seq<Pred>)
    requires Free(ps)
    ensures NonRarity(ps) == ps
  {
    if ps != [] {
      FreeKeepsAll(ps[..|ps| - 1]);
      assert ps == ps[..|ps| - 1] + [ps[|ps| - 1]];
    }
  }

  lemma {:induction false} FreePredsOf(make: string -> Pred, xs: seq<string>)
    requires forall x :: !make(x).kind.RarityLike?
    ensures Free(PredsOf(make, xs))
  {
    if xs != [] {
      FreePredsOf(make, xs[..|xs| - 1]);
    }
  }

  /** Everything the source adds after the rarity filter. */
  function AfterRarity(f: Filters): seq<Pred> {
    SetPreds(f) + PrintPreds(f) + LookPreds(f) + FromOracle(f) + PromoPreds(f)
  }

  lemma AroundRarity(
      a: seq<Pred>, r: seq<Pred>, s: seq<Pred>, p: seq<Pred>, l: seq<Pred>, o: seq<Pred>, x: seq<Pred>)
    ensures a + r + s + p + l + o + x == a + r + (s + p + l + o + x)
  {
  }

  lemma ActiveAroundRarity(f: Filters)
    ensures Active(f) == BeforeRarity(f) + RarityPreds(f) + AfterRarity(f)
  {
    BeforePromoParts(f);
    AroundRarity(BeforeRarity(f), RarityPreds(f), SetPreds(f), PrintPreds(f), LookPreds(f), FromOracle(f),
                 PromoPreds(f));
  }

  lemma FreeJoin(a: seq<Pred>, b: seq<Pred>)
    requires Free(a) && Free(b)
    ensures Free(a + b)
  {
  }

  lemma FreeBeforeRarity(f: Filters)
    ensures Free(BeforeRarity(f))
  {
    FreePredsOf(ColorPred, f.colors);
  }

  lemma FreeSetAndPrint(f: Filters)
    ensures Free(SetPreds(f)) && Free(PrintPreds(f))
  {
    FreeJoin(SetNamePreds(f), IfGiven(SetCodeIs, f.setCode));
    FreeJoin(SetNamePreds(f) + IfGiven(SetCodeIs, f.setCode), UniqueCardPreds(f));
    var numbers, after := ManaPreds(f) + DigitalPreds(f), IfGiven(ReleasedAfter, f.releasedAfter);
    FreeJoin(ManaPreds(f), DigitalPreds(f));
    FreeJoin(numbers, after);
    FreeJoin(numbers + after, IfGiven(ReleasedBefore, f.releasedBefore));
  }

  lemma FreeFromLook(f: Filters)
    ensures Free(LookPreds(f)) && Free(FromOracle(f)) && Free(PromoPreds(f))
  {
    FreePredsOf(FramePred, f.frameEffects);
  }

  /** No filter but rarity's own makes a rarity predicate. */
  lemma FreeAroundRarity(f: Filters)
    ensures Free(BeforeRarity(f)) && Free(AfterRarity(f))
  {
    FreeBeforeRarity(f);
    FreeSetAndPrint(f);
    FreeFromLook(f);
    var a, b := SetPreds(f) + PrintPreds(f), LookPreds(f);
    FreeJoin(SetPreds(f), PrintPreds(f));
    FreeJoin(a, b);
    FreeJoin(a + b, FromOracle(f));
    FreeJoin(a + b + FromOracle(f), PromoPreds(f));
  }

  lemma DropsTheMiddle(a: seq<Pred>, r: seq<Pred>, b: seq<Pred>)
    requires Free(a) && Free(b) && NonRarity(r) == []
    ensures NonRarity(a + r + b) == a + b
  {
    FreeKeepsAll(a);
    FreeKeepsAll(b);
    NonRaritySplits(a + r, b);
    NonRaritySplits(a, r);
    assert a + [] == a;
  }

  /** Without the rarity predicate the rest is in force, in the same order. */
  lemma NonRarityActive(f: Filters)
    ensures NonRarity(Active(f)) == BeforeRarity(f) + AfterRarity(f)
  {
    ActiveAroundRarity(f);
    FreeAroundRarity(f);
    DropsTheMiddle(BeforeRarity(f), RarityPreds(f), AfterRarity(f));
  }

  lemma NonRarityMeans<R>(sem: Sem<R>, f: Filters, row: R)
    ensures AllHold(sem, NonRarity(Active(f)), row) <==> MatchesBase(sem, f, row) && MatchesPromo(sem, f, row)
  {
    NonRarityActive(f);
    AllHoldSplits(sem, BeforeRarity(f), AfterRarity(f), row);
    Splits5(sem, SetPreds(f), PrintPreds(f), LookPreds(f), FromOracle(f), PromoPreds(f), row);
    BaseMeans(sem, f, row);
    RarityAndPromoMean(sem, f, row);
  }

  // ---------------------------------------------------------------- the queries

  /** A query as sent: its WHERE conditions, the placeholders of its ORDER BY and of LIMIT
      and OFFSET, and its values. */
  datatype Query = Query(conds: seq<Cond>, orderBy: seq<nat>, limitOffset: seq<nat>, sent: seq<Value>)

  datatype Queries = Queries(main: Query, count: Query, promoFacet: Query, rarityFacet: Query)

  function NameSlot(f: Filters): Option<nat> {
    if Given(f.name) then Some(1) else None
  }

  /** The placeholder of a text filter that follows the filters `before`. */
  function SlotBehind(before: seq<Pred>, o: Option<string>): Option<nat> {
    if Given(o) then Some(|Binds(before)| + 1) else None
  }

  function ToList(idx: Option<nat>): seq<nat> {
    if idx.Some? then [idx.value] else []
  }

  /** The text-search placeholders reused by ORDER BY: of the name and of the oracle text. */
  function OrderSlots(f: Filters): seq<nat> {
    ToList(NameSlot(f)) + ToList(SlotBehind(BeforeOracle(f), f.oracleText))
  }

  /** The four queries of a list of filters `ps` that starts with `base`, everything
      before the promo_type filter. */
  function MakeQueries(ps: seq<Pred>, base: seq<Pred>, orderBy: seq<nat>, limit: int, offset: int): Queries {
    var values, n, rf := Binds(ps), |Binds(ps)|, NonRarity(ps);
    Queries(
      Query(Render(ps), orderBy, [n + 1, n + 2], values + [Number(limit), Number(offset)]),
      Query(Render(ps), [], [], values),
      Query(Render(base), [], [], Binds(base)),
      Query(Render(rf), [], [], Binds(rf)))
  }

  function SearchQueries(f: Filters, limit: int, offset: int): Queries {
    MakeQueries(Active(f), BeforePromo(f), OrderSlots(f), limit, offset)
  }

  /** A query uses exactly the placeholders 1 to n of the n values it is sent, in order,
      and its ORDER BY only reuses some of them. */
  ghost predicate WellNumbered(q: Query) {
    && Slots(q.conds) + q.limitOffset == OneTo(|q.sent|)
    && forall i :: 0 <= i < |q.orderBy| ==> 1 <= q.orderBy[i] <= |q.sent|
  }

  /** LIMIT and OFFSET have a placeholder each, bound to the limit and to the offset. */
  predicate PagedBy(q: Query, limit: int, offset: int) {
    && |q.limitOffset| == 2
    && 1 <= q.limitOffset[0] <= |q.sent| && 1 <= q.limitOffset[1] <= |q.sent|
    && q.sent[q.limitOffset[0] - 1] == Number(limit)
    && q.sent[q.limitOffset[1] - 1] == Number(offset)
  }

  /** A placeholder of the WHERE clause, of this kind of condition and bound to this text. */
  predicate IsSlotOf(q: Query, i: nat, k: Kind, text: string) {
    1 <= i <= |q.sent| && q.sent[i - 1] == Text(text) && Cond(k, Some(i)) in q.conds
  }

  /** ORDER BY reuses the placeholder of the name filter, if a name is given, then that of
      the oracle text filter, if that is given, and no other. */
  predicate OrderedBy(q: Query, f: Filters) {
    var names, texts := f.name.Some? && f.name.value != "", f.oracleText.Some? && f.oracleText.value != "";
    && |q.orderBy| == (if names then 1 else 0) + (if texts then 1 else 0)
    && (names ==> IsSlotOf(q, q.orderBy[0], NameLike, f.name.value))
    && (texts ==> IsSlotOf(q, q.orderBy[|q.orderBy| - 1], OracleMatches, f.oracleText.value))
  }

  lemma {:induction false} BindsAppend(a: seq<Pred>, p: Pred)
    ensures Binds(a + [p]) == Binds(a) + if p.bound.Some? then [p.bound.value] else []
  {
    Snoc(a, p);
  }

  lemma RenderAppend(a: seq<Pred>, p: Pred)
    ensures Render(a + [p]) == Render(a) + [Cond(p.kind, if p.bound.Some? then Some(|Binds(a)| + 1) else None)]
  {
    Snoc(a, p);
  }

  /** The value bound by a predicate in the middle of a list, and its condition. */
  lemma BoundInTheMiddle(front: seq<Pred>, p: Pred, back: seq<Pred>)
    requires p.bound.Some?
    ensures
      var values, i := Binds(front + [p] + back), |Binds(front)|;
      i < |values| && values[i] == p.bound.value
    ensures Cond(p.kind, Some(|Binds(front)| + 1)) in Render(front + [p] + back)
  {
    BindsAppend(front, p);
    RenderAppend(front, p);
    RenderPrefix(front + [p], back);
    var all := Render(front + [p] + back);
    assert all[..|front| + 1][|front|] == Cond(p.kind, Some(|Binds(front)| + 1));
    assert all[|front|] == Cond(p.kind, Some(|Binds(front)| + 1));
  }

  lemma AroundOracle(b: seq<Pred>, o: seq<Pred>, e: seq<Pred>, x: seq<Pred>)
    ensures b + o + e + x == b + o + (e + x)
  {
  }

  lemma AroundName(n: seq<Pred>, c: seq<Pred>, r: seq<Pred>, back: seq<Pred>)
    ensures n + c + r + back == [] + n + (c + r + back)
  {
  }

  /** ORDER BY reuses the very values the WHERE clause binds for name and oracle text. */
  lemma OrderSlotsBound(f: Filters)
    ensures
      var values := Binds(Active(f));
      && (Given(f.name) ==> |values| >= 1 && values[0] == Text(f.name.value))
      && (Given(f.oracleText) ==>
           var i := |Binds(BeforeOracle(f))|;
           i < |values| && values[i] == Text(f.oracleText.value))
    ensures Given(f.name) ==> Cond(NameLike, Some(1)) in Render(Active(f))
    ensures Given(f.oracleText) ==> Cond(OracleMatches, Some(|Binds(BeforeOracle(f))| + 1)) in Render(Active(f))
  {
    if Given(f.name) {
      ActiveAroundRarity(f);
      AroundName(IfGiven(NameLike, f.name), ColorPreds(f.colors), RarityPreds(f), AfterRarity(f));
      BoundInTheMiddle([], Pred(NameLike, Some(Text(f.name.value))),
                       ColorPreds(f.colors) + RarityPreds(f) + AfterRarity(f));
    }
    if Given(f.oracleText) {
      AroundOracle(BeforeOracle(f), IfGiven(OracleMatches, f.oracleText), AfterOracle(f), PromoPreds(f));
      BoundInTheMiddle(BeforeOracle(f), Pred(OracleMatches, Some(Text(f.oracleText.value))),
                       AfterOracle(f) + PromoPreds(f));
    }
  }

  lemma MadeQueriesPaged(ps: seq<Pred>, base: seq<Pred>, orderBy: seq<nat>, limit: int, offset: int)
    ensures PagedBy(MakeQueries(ps, base, orderBy, limit, offset).main, limit, offset)
  {
  }

  lemma OrderSlotsAre(q: Query, values: seq<Value>, f: Filters, before: nat)
    requires values <= q.sent && before == |Binds(BeforeOracle(f))|
    requires q.orderBy == ToList(NameSlot(f)) + ToList(SlotBehind(BeforeOracle(f), f.oracleText))
    requires Given(f.name) ==>
      |values| >= 1 && values[0] == Text(f.name.value) && Cond(NameLike, Some(1)) in q.conds
    requires Given(f.oracleText) ==>
      && before < |values| && values[before] == Text(f.oracleText.value)
      && Cond(OracleMatches, Some(before + 1)) in q.conds
    ensures OrderedBy(q, f)
  {
  }

  /** The page is the one asked for, in the order asked for. */
  lemma PageAndOrder(f: Filters, limit: int, offset: int)
    ensures
      var q := SearchQueries(f, limit, offset);
      PagedBy(q.main, limit, offset) && OrderedBy(q.main, f)
  {
    MadeQueriesPaged(Active(f), BeforePromo(f), OrderSlots(f), limit, offset);
    OrderSlotsBound(f);
    OrderSlotsAre(SearchQueries(f, limit, offset).main, Binds(Active(f)), f, |Binds(BeforeOracle(f))|);
  }

  lemma OneToMore(n: nat)
    ensures OneTo(n) + [n + 1, n + 2] == OneTo(n + 2)
    ensures OneTo(n) + [] == OneTo(n)
  {
  }

  lemma PlainWellNumbered(ps: seq<Pred>)
    ensures WellNumbered(Query(Render(ps), [], [], Binds(ps)))
  {
    SlotsAreOneToN(ps);
    OneToMore(|Binds(ps)|);
  }

  lemma MainWellNumbered(ps: seq<Pred>, orderBy: seq<nat>, limit: Value, offset: Value)
    requires forall i :: 0 <= i < |orderBy| ==> 1 <= orderBy[i] <= |Binds(ps)|
    ensures
      var n := |Binds(ps)|;
      WellNumbered(Query(Render(ps), orderBy, [n + 1, n + 2], Binds(ps) + [limit, offset]))
  {
    SlotsAreOneToN(ps);
    OneToMore(|Binds(ps)|);
  }

  lemma MadeQueriesWellNumbered(ps: seq<Pred>, base: seq<Pred>, orderBy: seq<nat>, limit: int, offset: int)
    requires forall i :: 0 <= i < |orderBy| ==> 1 <= orderBy[i] <= |Binds(ps)|
    ensures
      var q := MakeQueries(ps, base, orderBy, limit, offset);
      WellNumbered(q.main) && WellNumbered(q.count) && WellNumbered(q.promoFacet) && WellNumbered(q.rarityFacet)
  {
    PlainWellNumbered(ps);
    PlainWellNumbered(base);
    PlainWellNumbered(NonRarity(ps));
    MainWellNumbered(ps, orderBy, Number(limit), Number(offset));
  }

  lemma BothInRange(a: Option<nat>, b: Option<nat>, n: nat)
    requires a.Some? ==> 1 <= a.value <= n
    requires b.Some? ==> 1 <= b.value <= n
    ensures forall i :: 0 <= i < |ToList(a) + ToList(b)| ==> 1 <= (ToList(a) + ToList(b))[i] <= n
  {
  }

  lemma OrderSlotsInRange(f: Filters)
    ensures forall i :: 0 <= i < |OrderSlots(f)| ==> 1 <= OrderSlots(f)[i] <= |Binds(Active(f))|
  {
    OrderSlotsBound(f);
    BothInRange(NameSlot(f), SlotBehind(BeforeOracle(f), f.oracleText), |Binds(Active(f))|);
  }

  /** Every query of a search is well numbered. */
  lemma AllQueriesWellNumbered(f: Filters, limit: int, offset: int)
    ensures
      var q := SearchQueries(f, limit, offset);
      WellNumbered(q.main) && WellNumbered(q.count) && WellNumbered(q.promoFacet) && WellNumbered(q.rarityFacet)
  {
    OrderSlotsInRange(f);
    MadeQueriesWellNumbered(Active(f), BeforePromo(f), OrderSlots(f), limit, offset);
  }

  /** What the four WHERE clauses select, each under the values sent with it: the page and
      its count honour every filter, the promo facet all but promo_type, and the rarity
      facet all but rarity. */
  lemma QueriesMean<R>(sem: Sem<R>, f: Filters, limit: int, offset: int, row: R)
    ensures
      var q := SearchQueries(f, limit, offset);
      var base, rarity, promo := MatchesBase(sem, f, row), MatchesRarity(sem, f, row), MatchesPromo(sem, f, row);
      && (Where(sem, q.main.conds, q.main.sent, row) <==> base && rarity && promo)
      && (Where(sem, q.count.conds, q.count.sent, row) <==> base && rarity && promo)
      && (Where(sem, q.promoFacet.conds, q.promoFacet.sent, row) <==> base && rarity)
      && (Where(sem, q.rarityFacet.conds, q.rarityFacet.sent, row) <==> base && promo)
  {
    var q := SearchQueries(f, limit, offset);
    RenderMeans(sem, Active(f), q.main.sent, row);
    RenderMeans(sem, Active(f), q.count.sent, row);
    RenderMeans(sem, BeforePromo(f), q.promoFacet.sent, row);
    RenderMeans(sem, NonRarity(Active(f)), q.rarityFacet.sent, row);
    AllHoldSplits(sem, BeforePromo(f), PromoPreds(f), row);
    BeforePromoMeans(sem, f, row);
    NonRarityMeans(sem, f, row);
    RarityAndPromoMean(sem, f, row);
  }

  lemma NextPred(make: string -> Pred, xs: seq<string>, i: nat)
    requires i < |xs|
    ensures PredsOf(make, xs[..i + 1]) == PredsOf(make, xs[..i]) + [make(xs[i])]
  {
    assert xs[..i + 1][..i] == xs[..i];
  }

  // ---------------------------------------------------------------- the builder

  lemma Regroup3(p: seq<Pred>, a: seq<Pred>, b: seq<Pred>, c: seq<Pred>)
    ensures p + a + b + c == p + (a + b + c)
  {
  }

  /** The local state of `search` while it collects conditions. */
  class Builder {
    var conditions: seq<Cond>
    var values: seq<Value>
    var counter: nat
    var rfConditions: seq<Cond>
    var rfValues: seq<Value>
    var rfCounter: nat
    ghost var preds: seq<Pred>

    ghost predicate Valid()
      reads this
    {
      && conditions == Render(preds) && values == Binds(preds) && counter == |values| + 1
      && rfConditions == Render(NonRarity(preds)) && rfValues == Binds(NonRarity(preds)) && rfCounter == |rfValues| + 1
    }

    constructor ()
      ensures Valid() && preds == []
    {
      conditions, values, counter := [], [], 1;
      rfConditions, rfValues, rfCounter := [], [], 1;
      preds := [];
    }

    /** A condition with a value, on both lists. */
    method Both(kind: Kind, value: Value)
      requires Valid() && !kind.RarityLike?
      modifies this
      ensures Valid() && preds == old(preds) + [Pred(kind, Some(value))]
    {
      var p := Pred(kind, Some(value));
      Snoc(preds, p);
      Snoc(NonRarity(preds), p);
      conditions := conditions + [Cond(kind, Some(counter))];
      rfConditions := rfConditions + [Cond(kind, Some(rfCounter))];
      values := values + [value];
      rfValues := rfValues + [value];
      counter := counter + 1;
      rfCounter := rfCounter + 1;
      preds := preds + [p];
    }

    /** A condition without a value, on both lists: no placeholder is used up. */
    method BothFixed(kind: Kind)
      requires Valid() && !kind.RarityLike?
      modifies this
      ensures Valid() && preds == old(preds) + [Pred(kind, None)]
    {
      Snoc(preds, Pred(kind, None));
      Snoc(NonRarity(preds), Pred(kind, None));
      conditions := conditions + [Cond(kind, None)];
      rfConditions := rfConditions + [Cond(kind, None)];
      preds := preds + [Pred(kind, None)];
    }

    method Rarity(value: Value)
      requires Valid()
      modifies this
      ensures Valid() && preds == old(preds) + [Pred(RarityLike, Some(value))]
    {
      Snoc(preds, Pred(RarityLike, Some(value)));
      assert NonRarity(preds) + [] == NonRarity(preds);
      conditions := conditions + [Cond(RarityLike, Some(counter))];
      values := values + [value];
      counter := counter + 1;
      preds := preds + [Pred(RarityLike, Some(value))];
    }

    method TextIfGiven(kind: Kind, o: Option<string>)
      requires Valid() && !kind.RarityLike?
      modifies this
      ensures Valid() && preds == old(preds) + IfGiven(kind, o)
    {
      if Given(o) {
        Both(kind, Text(o.value));
      } else {
        assert preds + [] == preds;
      }
    }

    method Colors(cs: seq<string>)
      requires Valid()
      modifies this
      ensures Valid() && preds == old(preds) + ColorPreds(cs)
    {
      for i := 0 to |cs|
        invariant Valid() && preds == old(preds) + ColorPreds(cs[..i])
      {
        NextPred(ColorPred, cs, i);
        Assoc(old(preds), ColorPreds(cs[..i]), [ColorPred(cs[i])]);
        if cs[i] == "Multi" {
          BothFixed(MultiColor);
        } else {
          Both(HasColor, Text(cs[i]));
        }
      }
      assert cs[..|cs|] == cs;
    }

    method Frames(fs: seq<string>)
      requires Valid()
      modifies this
      ensures Valid() && preds == old(preds) + FramePreds(fs)
    {
      for i := 0 to |fs|
        invariant Valid() && preds == old(preds) + FramePreds(fs[..i])
      {
        NextPred(FramePred, fs, i);
        Assoc(old(preds), FramePreds(fs[..i]), [FramePred(fs[i])]);
        Both(HasFrameEffect, Text(fs[i]));
      }
      assert fs[..|fs|] == fs;
    }

    method SetFilters(f: Filters)
      requires Valid()
      modifies this
      ensures Valid() && preds == old(preds) + SetPreds(f)
    {
      ghost var p := preds;
      if Given(f.setName) {
        Both(SetNameLike, Text(Like(f.setName.value)));
      }
      assert preds == p + SetNamePreds(f);
      TextIfGiven(SetCodeIs, f.setCode);
      Regroup3(p, SetNamePreds(f), IfGiven(SetCodeIs, f.setCode), UniqueCardPreds(f));
      if f.uniqueCardId.Some? {
        Both(UniqueCardIs, Text(f.uniqueCardId.value));
      }
    }

    method NumberAndFlag(f: Filters)
      requires Valid()
      modifies this
      ensures Valid() && preds == old(preds) + ManaPreds(f) + DigitalPreds(f)
    {
      if f.manaCost.Some? {
        Both(ManaCostIs, Number(f.manaCost.value));
      }
      assert preds == old(preds) + ManaPreds(f);
      if f.digital.Some? {
        Both(DigitalIs, Flag(f.digital.value));
      }
    }

    method PrintFilters(f: Filters)
      requires Valid()
      modifies this
      ensures Valid() && preds == old(preds) + PrintPreds(f)
    {
      NumberAndFlag(f);
      Assoc(old(preds), ManaPreds(f), DigitalPreds(f));
      ghost var numbers := ManaPreds(f) + DigitalPreds(f);
      TextIfGiven(ReleasedAfter, f.releasedAfter);
      TextIfGiven(ReleasedBefore, f.releasedBefore);
      Regroup3(old(preds), numbers, IfGiven(ReleasedAfter, f.releasedAfter), IfGiven(ReleasedBefore, f.releasedBefore));
    }

    method LookFilters(f: Filters)
      requires Valid()
      modifies this
      ensures Valid() && preds == old(preds) + LookPreds(f)
    {
      ghost var p := preds;
      TextIfGiven(HasType, f.cardType);
      if Given(f.finish) {
        Both(HasFinish, Text(f.upper(f.finish.value)));
      }
      assert preds == p + IfGiven(HasType, f.cardType) + FinishPreds(f);
      Frames(f.frameEffects);
      Regroup3(p, IfGiven(HasType, f.cardType), FinishPreds(f), FramePreds(f.frameEffects));
    }

    method LastFilters(f: Filters)
      requires Valid()
      modifies this
      ensures Valid() && preds == old(preds) + AfterOracle(f)
    {
      ghost var p := preds;
      TextIfGiven(ArtistIs, f.artist);
      TextIfGiven(LegalIn, f.format);
      Regroup3(p, IfGiven(ArtistIs, f.artist), IfGiven(LegalIn, f.format), LayoutPreds(f));
      if Given(f.layout) {
        Both(LayoutIs, Text(f.layout.value));
      } else {
        BothFixed(NotToken);
      }
    }

    /** The promo_type filter and the queries. */
    method Finish(promoType: seq<string>, orderBy: seq<nat>, limit: int, offset: int) returns (q: Queries)
      requires Valid()
      modifies this
      ensures q == MakeQueries(old(preds) + PromoTypePreds(promoType), old(preds), orderBy, limit, offset)
      ensures PagedBy(q.main, limit, offset)
    {
      // what the promo facet may see
      var facetCondStop, facetValStop := |conditions|, |values|;
      ghost var base := preds;
      ghost var promo := PromoTypePreds(promoType);
      if promoType != [] {
        Both(AnyPromoType, Texts(promoType));
      }
      assert preds == base + promo;
      RenderPrefix(base, promo);
      var sent := values + [Number(limit), Number(offset)];
      assert sent[..|sent| - 2] == values;
      assert sent[..facetValStop] == Binds(base);
      q := Queries(
        Query(conditions, orderBy, [counter, counter + 1], sent),
        Query(conditions, [], [], sent[..|sent| - 2]),
        Query(conditions[..facetCondStop], [], [], sent[..facetValStop]),
        Query(rfConditions, [], [], rfValues));
      MadeQueriesPaged(preds, base, orderBy, limit, offset);
    }

    /** The oracle text filter; returns its placeholder. */
    method OracleFilter(oracleText: Option<string>) returns (oracleIdx: Option<nat>)
      requires Valid()
      modifies this
      ensures Valid() && preds == old(preds) + IfGiven(OracleMatches, oracleText)
      ensures oracleIdx == SlotBehind(old(preds), oracleText)
    {
      oracleIdx := None;
      if Given(oracleText) {
        oracleIdx := Some(counter);
      }
      TextIfGiven(OracleMatches, oracleText);
    }

    /** Everything up to the oracle text filter; returns the name's placeholder. */
    method FirstFilters(f: Filters) returns (nameIdx: Option<nat>)
      requires Valid() && preds == []
      modifies this
      ensures Valid() && preds == BeforeOracle(f)
      ensures nameIdx == NameSlot(f)
    {
      nameIdx := None;
      if Given(f.name) {
        nameIdx := Some(counter);
      }
      TextIfGiven(NameLike, f.name);
      Colors(f.colors);
      assert preds == BeforeRarity(f);
      if Given(f.rarity) {
        Rarity(Text(Like(f.rarity.value)));
      }
      assert preds == BeforeRarity(f) + RarityPreds(f);
      SetFilters(f);
      PrintFilters(f);
      LookFilters(f);
    }

    /** Every filter but promo_type; returns the placeholders ORDER BY may reuse. */
    method Collect(f: Filters) returns (orderBy: seq<nat>)
      requires Valid() && preds == []
      modifies this
      ensures Valid() && preds == BeforePromo(f) && orderBy == OrderSlots(f)
    {
      var nameIdx := FirstFilters(f);
      var oracleIdx := OracleFilter(f.oracleText);
      LastFilters(f);
      orderBy := ToList(nameIdx) + ToList(oracleIdx);
    }
  }

  lemma MadeIsSearched(f: Filters, base: seq<Pred>, orderBy: seq<nat>, limit: int, offset: int, q: Queries)
    requires base == BeforePromo(f) && orderBy == OrderSlots(f)
    requires q == MakeQueries(base + PromoTypePreds(f.promoType), base, orderBy, limit, offset)
    ensures q == SearchQueries(f, limit, offset)
  {
  }

  method Search(f: Filters, limit: int, offset: int) returns (q: Queries)
    ensures q == SearchQueries(f, limit, offset)
    ensures PagedBy(q.main, limit, offset) && OrderedBy(q.main, f)
  {
    PageAndOrder(f, limit, offset);
    var b := new Builder();
    var orderBy := b.Collect(f);
    ghost var base := b.preds;
    q := b.Finish(f.promoType, orderBy, limit, offset);
    MadeIsSearched(f, base, orderBy, limit, offset, q);
  }
}
