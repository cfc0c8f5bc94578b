/**
 * Subscriptions: the backend gate that closes a company's endpoints outside
 * its subscription (backend/app/core/subscription_guard.py), the client's
 * subscription card (frontend/src/components/SubscriptionCard.jsx) and the
 * super-admin dashboard's plan features, expiry colours, extensions and
 * figures (frontend/src/pages/SuperAdminDashboard.jsx).
 *
 * Dates on the backend are day numbers; instants on the frontend are
 * milliseconds.
 */
module Subscription {
  import opened Common

  const SuperAdmin: string := "SUPER_ADMIN"

  // ---------------------------------------------------------------------
  // enforce_company_subscription
  // ---------------------------------------------------------------------

  datatype Company = Company(isActive: bool, subscriptionStart: int, subscriptionEnd: int)

  datatype User = User(id: int, legacyRole: string, companyId: int)

  /** The subscription window, both ends included. */
  predicate Covers(c: Company, today: int)
  {
    c.subscriptionStart <= today <= c.subscriptionEnd
  }

  /**
   * `enforce_company_subscription`: a super admin passes; anyone else needs
   * an existing, active company whose window covers today.
   */
  function Enforce(user: User, companies: map<int, Company>, today: int): (r: Result<User>)
    ensures user.legacyRole == SuperAdmin ==> r == Ok(user)
    ensures user.legacyRole != SuperAdmin ==>
      (r.Ok? <==> user.companyId in companies && companies[user.companyId].isActive && Covers(companies[user.companyId], today))
    ensures r.Ok? ==> r.value == user
    ensures r.Err? ==> r.status == 403
  {
    if user.legacyRole == SuperAdmin then Ok(user)
    else if user.companyId !in companies then Err(403, "Company not found")
    else
      var c := companies[user.companyId];
      if !c.isActive then Err(403, "Company is disabled. Contact Super Admin.")
      else if !Covers(c, today) then Err(403, "Subscription expired. Please renew.")
      else Ok(user)
  }

  /** A disabled company is reported as disabled whatever its dates, and a missing one as missing. */
  lemma DisabledBeforeDates(user: User, companies: map<int, Company>, today: int)
    requires user.legacyRole != SuperAdmin
    ensures user.companyId !in companies ==> Enforce(user, companies, today) == Err(403, "Company not found")
    ensures user.companyId in companies && !companies[user.companyId].isActive ==>
      Enforce(user, companies, today) == Err(403, "Company is disabled. Contact Super Admin.")
  {
  }

  /** Whether a user passes does not depend on the other companies. */
  lemma EnforceIsLocal(user: User, companies: map<int, Company>, other: int, c: Company, today: int)
    requires other != user.companyId
    ensures Enforce(user, companies[other := c], today).Ok? == Enforce(user, companies, today).Ok?
  {
  }

  // ---------------------------------------------------------------------
  // Day counts
  // ---------------------------------------------------------------------

  const DayMs: int := 86400000

  /** `Math.ceil(a / b)` for a positive divisor. */
  function CeilDiv(a: int, b: int): (r: int)
    requires b > 0
    ensures (r - 1) * b < a <= r * b
  {
    var q := (-a) / b;
    assert -a == q * b + (-a) % b;
    -q
  }

  /** Whole days, rounded up, from `todayMs` to `endMs`. */
  function DaysUntil(endMs: int, todayMs: int): (d: int)
    ensures (d - 1) * DayMs < endMs - todayMs <= d * DayMs
  {
    CeilDiv(endMs - todayMs, DayMs)
  }

  /** Past the end by a full day or more exactly when the day count is negative. */
  lemma DaysNegativeIff(endMs: int, todayMs: int)
    ensures DaysUntil(endMs, todayMs) < 0 <==> todayMs - endMs >= DayMs
    ensures 0 <= DaysUntil(endMs, todayMs) <= 7 <==> -DayMs < endMs - todayMs <= 7 * DayMs
  {
    var d := DaysUntil(endMs, todayMs);
    if d < 0 {
      assert d * DayMs <= -DayMs;
    }
    if d > 7 {
      assert (d - 1) * DayMs >= 7 * DayMs;
    }
    if 0 <= d <= 7 {
      assert d * DayMs <= 7 * DayMs;
      assert (d - 1) * DayMs >= -DayMs;
    }
  }

  // ---------------------------------------------------------------------
  // SubscriptionCard
  // ---------------------------------------------------------------------

  function Clamp(x: real): (r: real)
    ensures 0.0 <= r <= 100.0
    ensures 0.0 <= x <= 100.0 ==> r == x
    ensures x < 0.0 ==> r == 0.0
    ensures x > 100.0 ==> r == 100.0
  {
    if x < 0.0 then 0.0 else if x > 100.0 then 100.0 else x
  }

  /**
   * `Math.max(0, Math.min(100, elapsed / total * 100))` in floating point:
   * None stands for NaN, which 0 / 0 gives and neither bound removes; a
   * non-zero count over zero is an infinity, which the bounds do clamp.
   */
  function ProgressAsWritten(totalDays: int, elapsedDays: int): (r: Option<real>)
    ensures r.None? <==> totalDays == 0 && elapsedDays == 0
    ensures r.Some? ==> 0.0 <= r.value <= 100.0
  {
    if totalDays == 0 then
      if elapsedDays == 0 then None
      else if elapsedDays > 0 then Some(100.0)
      else Some(0.0)
    else Some(Clamp(elapsedDays as real / totalDays as real * 100.0))
  }

  /** What the card derives from the subscription window and the current instant. */
  datatype Card = Card(daysRemaining: int, isExpired: bool, isWarning: bool, totalDays: int,
                       progress: Option<real>, shownDays: int)

  function SubscriptionCard(startMs: int, endMs: int, todayMs: int): (c: Card)
    ensures c.daysRemaining == DaysUntil(endMs, todayMs)
    ensures c.isExpired <==> c.daysRemaining < 0
    ensures c.isWarning <==> 0 <= c.daysRemaining <= 7
    ensures !(c.isExpired && c.isWarning)
    ensures c.shownDays >= 0 && (c.daysRemaining >= 0 ==> c.shownDays == c.daysRemaining)
    ensures c.progress.Some? ==> 0.0 <= c.progress.value <= 100.0
    ensures (c.totalDays - 1) * DayMs < endMs - startMs <= c.totalDays * DayMs
    ensures c.progress == ProgressAsWritten(c.totalDays, c.totalDays - c.daysRemaining)
    ensures c.totalDays > 0 && 0 <= c.daysRemaining <= c.totalDays ==>
      c.progress == Some((c.totalDays - c.daysRemaining) as real / c.totalDays as real * 100.0)
  {
    var days := DaysUntil(endMs, todayMs);
    var expired := days < 0;
    var warning := days <= 7 && !expired;
    var total := CeilDiv(endMs - startMs, DayMs);
    Card(days, expired, warning, total, ProgressAsWritten(total, total - days),
         if days > 0 then days else 0)
  }

  /** The card says expired once the end lies a full day behind, and warns in the week before. */
  lemma CardFlags(startMs: int, endMs: int, todayMs: int)
    ensures SubscriptionCard(startMs, endMs, todayMs).isExpired <==> todayMs - endMs >= DayMs
    ensures SubscriptionCard(startMs, endMs, todayMs).isWarning <==> -DayMs < endMs - todayMs <= 7 * DayMs
  {
    DaysNegativeIff(endMs, todayMs);
  }

  /** A subscription that starts and ends at the current instant shows a NaN progress. */
  lemma SameInstantProgressIsNaN(t: int)
    ensures SubscriptionCard(t, t, t).progress.None?
  {
    assert DaysUntil(t, t) == 0;
    assert CeilDiv(t - t, DayMs) == 0;
  }

  /** The progress with an empty or reversed window taken as fully elapsed. */
  function Progress(totalDays: int, elapsedDays: int): (r: real)
    ensures 0.0 <= r <= 100.0
    ensures totalDays > 0 && 0 <= elapsedDays <= totalDays ==> r == elapsedDays as real / totalDays as real * 100.0
    ensures totalDays <= 0 ==> r == 100.0
  {
    if totalDays <= 0 then 100.0
    else
      var x := elapsedDays as real / totalDays as real;
      assert 0 <= elapsedDays <= totalDays ==> 0.0 <= x <= 1.0;
      Clamp(x * 100.0)
  }

  /** Wherever the as-written percentage is a number with a positive window, the two agree. */
  lemma ProgressAgrees(totalDays: int, elapsedDays: int)
    requires totalDays > 0
    ensures ProgressAsWritten(totalDays, elapsedDays) == Some(Progress(totalDays, elapsedDays))
  {
  }

  // ---------------------------------------------------------------------
  // Plan features
  // ---------------------------------------------------------------------

  /** Trimmed pieces with the empty ones dropped (`.map((f) => f.trim()).filter(Boolean)`). */
  function TrimmedNonEmpty(parts: seq<string>): seq<string>
  {
    if parts == [] then [] else KeepTrimmed(parts[0]) + TrimmedNonEmpty(parts[1..])
  }

  /** The trimmed piece, or nothing when trimming leaves it empty. */
  function KeepTrimmed(s: string): seq<string>
  {
    var t := Trim(s);
    if t == "" then [] else [t]
  }

  /** Every piece is non-empty and trimmed. */
  predicate AllFeatures(xs: seq<string>)
  {
    forall i :: 0 <= i < |xs| ==> xs[i] != "" && IsTrimmed(xs[i])
  }

  /** No piece holds a comma. */
  predicate NoCommas(xs: seq<string>)
  {
    forall i :: 0 <= i < |xs| ==> ',' !in xs[i]
  }

  /** The features kept are trimmed and non-empty, and free of commas when the pieces were. */
  lemma {:induction false} TrimmedNonEmptyFeatures(parts: seq<string>)
    ensures AllFeatures(TrimmedNonEmpty(parts))
    ensures NoCommas(parts) ==> NoCommas(TrimmedNonEmpty(parts))
  {
    if parts != [] {
      var rest := TrimmedNonEmpty(parts[1..]);
      TrimmedNonEmptyFeatures(parts[1..]);
      KeepFeatures(parts[0], rest);
      if NoCommas(parts) {
        NoCommasTail(parts);
        KeepNoCommas(parts[0], rest);
      }
    }
  }

  lemma NoCommasTail(xs: seq<string>)
    requires xs != [] && NoCommas(xs)
    ensures ',' !in xs[0] && NoCommas(xs[1..])
  {
    assert forall i :: 0 <= i < |xs| - 1 ==> xs[1..][i] == xs[i + 1];
  }

  /** One more piece in front keeps the features trimmed and non-empty. */
  lemma KeepFeatures(x: string, rest: seq<string>)
    requires AllFeatures(rest)
    ensures AllFeatures(KeepTrimmed(x) + rest)
  {
    var r := KeepTrimmed(x) + rest;
    if Trim(x) != "" {
      assert forall i :: 1 <= i < |r| ==> r[i] == rest[i - 1];
    }
  }

  /** One more piece without a comma in front keeps the features free of commas. */
  lemma KeepNoCommas(x: string, rest: seq<string>)
    requires ',' !in x && NoCommas(rest)
    ensures NoCommas(KeepTrimmed(x) + rest)
  {
    var r := KeepTrimmed(x) + rest;
    TrimKeepsOut(x, ',');
    if Trim(x) != "" {
      assert forall i :: 1 <= i < |r| ==> r[i] == rest[i - 1];
    }
  }

  lemma TrimKeepsOut(s: string, c: char)
    ensures c !in s ==> c !in Trim(s)
  {
    var a := TrimStart(s);
    assert forall i :: 0 <= i < |a| ==> a[i] == s[|s| - |a| + i];
    var b := TrimEnd(a);
    assert forall i :: 0 <= i < |b| ==> b[i] == a[i];
  }

  /** The features typed in the plan dialogs, split on commas. */
  function ParseFeatures(s: string): (r: seq<string>)
    ensures forall i :: 0 <= i < |r| ==> r[i] != "" && IsTrimmed(r[i]) && ',' !in r[i]
  {
    var parts := Split(s, ',');
    TrimmedNonEmptyFeatures(parts);
    TrimmedNonEmpty(parts)
  }

  /** How the update dialog shows a plan's features. */
  function JoinFeatures(fs: seq<string>): string
  {
    Join(fs, ", ")
  }

  predicate WellFormedFeature(f: string)
  {
    f != "" && IsTrimmed(f) && ',' !in f
  }

  /** Every feature behind the prefix `p`. */
  function PrefixAll(p: string, fs: seq<string>): (r: seq<string>)
    ensures |r| == |fs| && forall i :: 0 <= i < |fs| ==> r[i] == p + fs[i]
  {
    seq(|fs|, i requires 0 <= i < |fs| => p + fs[i])
  }

  /** The first feature as is, each later one behind the space of the separator. */
  function Spaced(fs: seq<string>): (r: seq<string>)
    ensures |r| == |fs|
  {
    if fs == [] then [] else [fs[0]] + PrefixAll(" ", fs[1..])
  }

  /** A separator `c + p` in front of a joined list is `c` in front of the pieces prefixed by `p`. */
  lemma {:induction false} JoinPrefixAll(xs: seq<string>, c: string, p: string)
    requires xs != []
    ensures (c + p) + Join(xs, c + p) == c + Join(PrefixAll(p, xs), c)
    decreases |xs|
  {
    var ps := PrefixAll(p, xs);
    if |xs| > 1 {
      var j, k := Join(xs[1..], c + p), Join(ps[1..], c);
      JoinPrefixAll(xs[1..], c, p);
      assert ps[1..] == PrefixAll(p, xs[1..]);
      assert (c + p) + j == c + k;
      assert Join(xs, c + p) == xs[0] + (c + p) + j;
      assert Join(ps, c) == (p + xs[0]) + c + k;
      ConcatShift(c, p, xs[0], j, k);
    }
  }

  /** Regrouping `c + p + x + (c + p + j)` when `c + p + j == c + k`. */
  lemma ConcatShift(c: string, p: string, x: string, j: string, k: string)
    requires (c + p) + j == c + k
    ensures (c + p) + (x + (c + p) + j) == c + ((p + x) + c + k)
  {
    calc {
      (c + p) + (x + (c + p) + j);
      c + (p + x) + ((c + p) + j);
      c + (p + x) + (c + k);
      c + ((p + x) + c + k);
    }
  }

  lemma JoinSpaced(fs: seq<string>)
    ensures Join(fs, ", ") == Join(Spaced(fs), ",")
  {
    if |fs| > 1 {
      var sp := Spaced(fs);
      assert sp[1..] == PrefixAll(" ", fs[1..]);
      JoinPrefixAll(fs[1..], ",", " ");
      assert "," + " " == ", ";
      SeparatorRegroup(fs[0], ", ", ",", Join(fs[1..], ", "), Join(sp[1..], ","));
    }
  }

  /** The step of `JoinSpaced` with the two separators held abstract. */
  lemma SeparatorRegroup(x: string, cp: string, c: string, j: string, k: string)
    requires cp + j == c + k
    ensures x + cp + j == x + c + k
  {
    calc {
      x + cp + j;
      x + (cp + j);
      x + (c + k);
      x + c + k;
    }
  }

  lemma TrimSpaced(fs: seq<string>)
    requires forall i :: 0 <= i < |fs| ==> WellFormedFeature(fs[i])
    ensures TrimmedNonEmpty(Spaced(fs)) == fs
  {
    if fs != [] {
      FeatureKept(fs[0]);
      ConsParts(fs[0], PrefixAll(" ", fs[1..]));
      TrimPrefixed(fs[1..]);
      HeadTail(fs);
    }
  }

  /** A well-formed feature trims back to itself. */
  lemma FeatureKept(f: string)
    requires WellFormedFeature(f)
    ensures KeepTrimmed(f) == [f]
  {
    TrimOfTrimmed(f);
  }

  lemma {:induction false} TrimPrefixed(fs: seq<string>)
    requires forall i :: 0 <= i < |fs| ==> WellFormedFeature(fs[i])
    ensures TrimmedNonEmpty(PrefixAll(" ", fs)) == fs
  {
    if fs != [] {
      SpacedFeatureKept(fs[0]);
      PrefixAllTail(" ", fs);
      TrimPrefixed(fs[1..]);
      HeadTail(fs);
    }
  }

  /** A well-formed feature behind a space trims back to itself. */
  lemma SpacedFeatureKept(f: string)
    requires WellFormedFeature(f)
    ensures KeepTrimmed(" " + f) == [f]
  {
    TrimStartSpace(f);
    TrimOfTrimmed(f);
  }

  /** A leading space is dropped by trimming the start. */
  lemma TrimStartSpace(f: string)
    ensures TrimStart(" " + f) == TrimStart(f)
  {
    assert (" " + f)[1..] == f;
  }

  /** The first prefixed piece, and the rest prefixed. */
  lemma PrefixAllTail(p: string, fs: seq<string>)
    requires fs != []
    ensures PrefixAll(p, fs)[0] == p + fs[0] && PrefixAll(p, fs)[1..] == PrefixAll(p, fs[1..])
  {
  }

  /** Showing well-formed features and saving them back gives the same list. */
  lemma FeaturesRoundTrip(fs: seq<string>)
    requires forall i :: 0 <= i < |fs| ==> WellFormedFeature(fs[i])
    ensures ParseFeatures(JoinFeatures(fs)) == fs
  {
    JoinSpaced(fs);
    var sp := Spaced(fs);
    if fs == [] {
      assert Split("", ',') == [""];
      assert Trim("") == "";
    } else {
      assert forall i :: 0 <= i < |sp| ==> ',' !in sp[i] by {
        forall i | 0 <= i < |sp|
          ensures ',' !in sp[i]
        {
          if i > 0 {
            assert sp[i] == " " + fs[i];
          }
        }
      }
      SplitJoin(sp, ',');
      TrimSpaced(fs);
    }
  }

  /** Opening and saving a plan twice changes nothing after the first save. */
  lemma FeaturesStable(s: string)
    ensures ParseFeatures(JoinFeatures(ParseFeatures(s))) == ParseFeatures(s)
  {
    FeaturesRoundTrip(ParseFeatures(s));
  }

  // ---------------------------------------------------------------------
  // CompanyRow, ExtendSubscriptionModal, figures
  // ---------------------------------------------------------------------

  datatype ExpiryColour = Red | Amber | Yellow | Grey

  /** The colour of a company's end date by whole days left. */
  function ExpiryClass(diffDays: int): (r: ExpiryColour)
    ensures r == Red <==> diffDays < 0
    ensures r == Amber <==> 0 <= diffDays <= 7
    ensures r == Yellow <==> 7 < diffDays <= 30
    ensures r == Grey <==> diffDays > 30
  {
    if diffDays < 0 then Red
    else if diffDays <= 7 then Amber
    else if diffDays <= 30 then Yellow
    else Grey
  }

  /** The dashboard's red and amber are the client card's expired and warning states. */
  lemma ExpiryMatchesCard(startMs: int, endMs: int, todayMs: int)
    ensures ExpiryClass(DaysUntil(endMs, todayMs)) == Red <==> SubscriptionCard(startMs, endMs, todayMs).isExpired
    ensures ExpiryClass(DaysUntil(endMs, todayMs)) == Amber <==> SubscriptionCard(startMs, endMs, todayMs).isWarning
  {
  }

  datatype Extension = ByPlan(planId: int) | NewEnd(endDay: int)

  /** The lengths the custom extension offers. */
  predicate OfferedDays(n: int)
  {
    n == 30 || n == 90 || n == 180 || n == 365 || n == 730
  }

  /**
   * `ExtendSubscriptionModal.handleSubmit`: a chosen plan is sent alone;
   * otherwise the new end is the current end plus the custom days.
   */
  function Extend(planMode: bool, planId: Option<nat>, customDays: int, currentEnd: int): (r: Extension)
    ensures r.ByPlan? <==> planMode && planId.Some? && planId.value != 0
    ensures r.ByPlan? ==> r.planId == planId.value
    ensures r.NewEnd? ==> r.endDay - currentEnd == customDays
  {
    if planMode && planId.Some? && planId.value != 0 then ByPlan(planId.value)
    else NewEnd(currentEnd + customDays)
  }

  /** A custom extension with one of the offered lengths moves the end later. */
  lemma CustomExtensionExtends(customDays: int, currentEnd: int)
    requires OfferedDays(customDays)
    ensures Extend(false, None, customDays, currentEnd).endDay > currentEnd
  {
  }

  /** `Math.round` of a non-negative quotient: halves go up. */
  function Round(x: real): (r: int)
    ensures r as real <= x + 0.5 < r as real + 1.0
  {
    (x + 0.5).Floor
  }

  /** Average revenue per user, shown only when there are users. */
  function Arpu(totalMrr: real, totalUsers: int): (r: Option<int>)
    ensures r.Some? <==> totalUsers > 0
    ensures r.Some? ==> r.value == Round(totalMrr / totalUsers as real)
  {
    if totalUsers > 0 then Some(Round(totalMrr / totalUsers as real)) else None
  }

  /** The shown average is within half a rupee of the true one. */
  lemma ArpuWithinHalf(totalMrr: real, totalUsers: int)
    requires totalUsers > 0
    ensures var a := Arpu(totalMrr, totalUsers).value as real;
      -0.5 < a - totalMrr / totalUsers as real <= 0.5
  {
  }

  /** The usage bar's width in percent against the busiest company (`|| 1` for a zero count). */
  function UsageWidth(invoiceCount: int, topCount: int): (r: real)
    ensures r >= 10.0
    ensures r > 10.0 ==> topCount != 0 ==> r == invoiceCount as real / topCount as real * 100.0
  {
    var denominator := if topCount != 0 then topCount else 1;
    var w := invoiceCount as real / denominator as real * 100.0;
    if w > 10.0 then w else 10.0
  }

  /** The busiest company fills the bar. */
  lemma TopCompanyFullWidth(topCount: int)
    requires topCount > 0
    ensures UsageWidth(topCount, topCount) == 100.0
  {
    assert topCount as real / topCount as real == 1.0;
  }

  /** `plan_id` of a new company: the chosen plan's id, or null when none is chosen. */
  function NewCompanyPlanId(chosen: Option<int>): (r: Option<int>)
    ensures r.Some? <==> chosen.Some? && chosen.value != 0
    ensures r.Some? ==> r.value == chosen.value
  {
    if chosen.Some? && chosen.value != 0 then Some(chosen.value) else None
  }
}
