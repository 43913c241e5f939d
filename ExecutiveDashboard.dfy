/** The KPI card rules of sentinel-frontend/src/pages/ExecutiveDashboard.tsx:
    the colour polarity of a delta, the growth highlight, the arrow and the
    icon of each card. */
module ExecutiveDashboard {
  import opened ApiTypes
  import opened MockData

  /** `isPositive`: an increase is good for an "up" KPI, a decrease for any
      other trend. */
  function IsPositive(k: KpiDelta): bool {
    if k.trend == "up" then k.delta > 0 else k.delta < 0
  }

  /** `isGrowth`: the two KPIs whose value is highlighted. */
  function IsGrowth(k: KpiDelta): bool {
    k.caption == "Policies Enforced" || k.caption == "Threats Blocked"
  }

  /** The trending-up arrow is drawn exactly for a strictly positive delta. */
  function ArrowUp(k: KpiDelta): bool {
    k.delta > 0
  }

  /** `Math.abs(kpi.delta)` */
  function Magnitude(k: KpiDelta): (m: nat)
    ensures m == k.delta || m == -k.delta
  {
    if k.delta < 0 then -k.delta else k.delta
  }

  datatype KpiIcon = Bot | DollarSign | Shield | ShieldAlert

  const Icons: seq<KpiIcon> := [Bot, DollarSign, Shield, ShieldAlert]

  /** `icons[i] || Bot` */
  function IconFor(i: nat): KpiIcon {
    if i < |Icons| then Icons[i] else Bot
  }

  /** A card is coloured positive exactly when its delta is non-zero and
      the arrow points the way the KPI's trend calls good; so a zero delta
      is never positive, and the arrow ignores the trend. */
  lemma PolarityFacts(k: KpiDelta)
    ensures IsPositive(k) <==> k.delta != 0 && (ArrowUp(k) <==> k.trend == "up")
    ensures k.delta == 0 ==> !IsPositive(k) && !ArrowUp(k)
    ensures ArrowUp(k) == ArrowUp(k.(trend := "up")) == ArrowUp(k.(trend := "down"))
    ensures k.delta != 0 ==> IsPositive(k.(trend := "up")) != IsPositive(k.(trend := "down"))
  {
  }

  /** The magnitude forgets the sign: it is zero only for a zero delta and
      is the same for a delta and its negation. */
  lemma MagnitudeFacts(k: KpiDelta)
    ensures Magnitude(k) == Magnitude(k.(delta := -k.delta))
    ensures Magnitude(k) == 0 <==> k.delta == 0
    ensures ArrowUp(k) ==> Magnitude(k) == k.delta
  {
  }

  /** The first four cards get their own icons; later ones fall back to the
      bot icon, which is also the first card's. */
  lemma IconFacts(i: nat)
    ensures i < 4 ==> IconFor(i) == Icons[i]
    ensures i >= 4 ==> IconFor(i) == Bot
    ensures forall j :: 0 <= j < i && i < 4 ==> IconFor(j) != IconFor(i)
  {
  }

  /** Over the fixtures every card is coloured positive, the arrows point
      down, down, up, up, and the last two cards are the growth cards. */
  lemma MockKpiCards()
    ensures forall i :: 0 <= i < |MockExecutiveMetrics.kpiDeltas| ==> IsPositive(MockExecutiveMetrics.kpiDeltas[i])
    ensures forall i :: 0 <= i < |MockExecutiveMetrics.kpiDeltas| ==>
      (ArrowUp(MockExecutiveMetrics.kpiDeltas[i]) <==> i >= 2) && (IsGrowth(MockExecutiveMetrics.kpiDeltas[i]) <==> i >= 2)
  {
  }
}
