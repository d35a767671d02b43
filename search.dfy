/**
 * The payments search screen of `src/screens/PaymentsSearch.tsx`: the display
 * helpers (status labels, date reformatting, the overdue badge), the
 * selection list, the settle pre-check, and the component state updated by
 * `handleSearch`, `toggleSelection`, `handleSettle` and the effect that drops
 * stale results when the filters change while offline.
 *
 * The form's date fields hold what an `<input type="date">` holds: `""` or a
 * `YYYY-MM-DD` text. `isOnline` and the clock are parameters; the server's
 * answers are fetch outcomes, as in `Payments`.
 */
module Search {
  import opened Basics
  import opened Calendar
  import opened Cache
  import opened Fallback
  import opened Payments

  /* ---------------------------------------------------------------------
   * Status labels.
   * --------------------------------------------------------------------- */

  /** The status as the API spells it. */
  function StatusCode(s: PaymentStatus): string
  {
    match s
    case Paid => "PAID"
    case Credit => "CREDIT"
    case Installments => "INSTALLMENTS"
  }

  /** `formatStatus`: French labels for PAID and CREDIT, anything else shown as it is. */
  function FormatStatus(status: string): (r: string)
    ensures status == "PAID" ==> r == "Payé"
    ensures status == "CREDIT" ==> r == "Crédit"
    ensures status != "PAID" && status != "CREDIT" ==> r == status
  {
    if status == "PAID" then "Payé"
    else if status == "CREDIT" then "Crédit"
    else status
  }

  /** `parseStatus`: only the two French labels name a status; every other text names none. */
  function ParseStatus(display: string): (r: Option<PaymentStatus>)
    ensures r.Some? <==> display == "Payé" || display == "Crédit"
    ensures r.Some? ==> r.value != Installments
  {
    if display == "Payé" then Some(Paid)
    else if display == "Crédit" then Some(Credit)
    else None
  }

  /** The label of PAID and of CREDIT reads back as that status. */
  lemma StatusLabelRoundTrip(s: PaymentStatus)
    requires s != Installments
    ensures ParseStatus(FormatStatus(StatusCode(s))) == Some(s)
  {
  }

  /** A label that reads as a status is the label of that status. */
  lemma LabelStatusRoundTrip(display: string)
    requires ParseStatus(display).Some?
    ensures FormatStatus(StatusCode(ParseStatus(display).value)) == display
  {
  }

  /** INSTALLMENTS has no label of its own: it is shown raw and does not read back. */
  lemma InstallmentsShownRaw()
    ensures FormatStatus(StatusCode(Installments)) == "INSTALLMENTS"
    ensures ParseStatus(FormatStatus(StatusCode(Installments))) == None
  {
  }

  /* ---------------------------------------------------------------------
   * `String.prototype.split` on one character and its inverse `join`.
   * --------------------------------------------------------------------- */

  /** `parts.join(sep)`. */
  function Join(parts: seq<string>, sep: char): string
    requires |parts| >= 1
  {
    if |parts| == 1 then parts[0] else parts[0] + [sep] + Join(parts[1..], sep)
  }

  /** `s.split(sep)`: the pieces between the separators, never an empty list. */
  function Split(s: string, sep: char): (parts: seq<string>)
    ensures |parts| >= 1
    ensures forall i :: 0 <= i < |parts| ==> sep !in parts[i]
    ensures Join(parts, sep) == s
  {
    if s == [] then [""]
    else
      var rest := Split(s[1..], sep);
      if s[0] == sep then
        assert ([""] + rest)[1..] == rest;
        [""] + rest
      else
        var parts := [[s[0]] + rest[0]] + rest[1..];
        assert parts[1..] == rest[1..];
        parts
  }

  /** A piece without the separator splits to itself. */
  lemma {:induction false} SplitWithoutSeparator(a: string, sep: char)
    requires sep !in a
    ensures Split(a, sep) == [a]
  {
    if a != [] {
      SplitWithoutSeparator(a[1..], sep);
    }
  }

  /** Splitting at the first separator. */
  lemma {:induction false} SplitAtFirst(a: string, b: string, sep: char)
    requires sep !in a
    ensures Split(a + [sep] + b, sep) == [a] + Split(b, sep)
  {
    var s := a + [sep] + b;
    if a == [] {
      assert s[1..] == b;
    } else {
      assert s[1..] == a[1..] + [sep] + b;
      SplitAtFirst(a[1..], b, sep);
      assert [a[0]] + a[1..] == a;
    }
  }

  /** Joining pieces free of the separator and splitting again gives the pieces back. */
  lemma {:induction false} SplitJoin(parts: seq<string>, sep: char)
    requires |parts| >= 1
    requires forall i :: 0 <= i < |parts| ==> sep !in parts[i]
    ensures Split(Join(parts, sep), sep) == parts
  {
    if |parts| == 1 {
      SplitWithoutSeparator(parts[0], sep);
    } else {
      SplitJoin(parts[1..], sep);
      SplitAtFirst(parts[0], Join(parts[1..], sep), sep);
    }
  }

  /** Joining is injective on pieces free of the separator. */
  lemma JoinInjective(p1: seq<string>, p2: seq<string>, sep: char)
    requires |p1| >= 1 && |p2| >= 1
    requires forall i :: 0 <= i < |p1| ==> sep !in p1[i]
    requires forall i :: 0 <= i < |p2| ==> sep !in p2[i]
    requires Join(p1, sep) == Join(p2, sep)
    ensures p1 == p2
  {
    SplitJoin(p1, sep);
    SplitJoin(p2, sep);
  }

  /* ---------------------------------------------------------------------
   * Date reformatting.
   * --------------------------------------------------------------------- */

  /** A destructured array element, as a template literal prints it: a missing one is `undefined`. */
  function Element(parts: seq<string>, i: nat): string
  {
    if i < |parts| then parts[i] else "undefined"
  }

  /** `formatDateDDMMYYYY`: the empty text stays empty; otherwise the first three dash-separated pieces, reversed. */
  function FormatDateDDMMYYYY(dateStr: string): (r: string)
    ensures dateStr == "" ==> r == ""
  {
    if dateStr == "" then ""
    else
      var parts := Split(dateStr, '-');
      Element(parts, 2) + "/" + Element(parts, 1) + "/" + Element(parts, 0)
  }

  /** Three dash-free fields `y-m-d` are shown as `d/m/y`. */
  lemma FormatsThreeFields(y: string, m: string, d: string)
    requires '-' !in y && '-' !in m && '-' !in d
    ensures FormatDateDDMMYYYY(y + "-" + m + "-" + d) == d + "/" + m + "/" + y
  {
    var parts := [y, m, d];
    assert parts[1..] == [m, d] && [m, d][1..] == [d];
    assert Join([m, d], '-') == m + "-" + d;
    assert Join(parts, '-') == y + "-" + m + "-" + d;
    SplitJoin(parts, '-');
  }

  /** The `YYYY-MM-DD` text of a date is shown as `DD/MM/YYYY`, with the same zero-padded fields. */
  lemma FormatsIsoDate(c: CivilDate)
    requires ValidDate(c)
    ensures var y := PadStart(DecimalString(c.year), 4);
            var m := PadStart(DecimalString(c.month), 2);
            var d := PadStart(DecimalString(c.day), 2);
            FormatDateDDMMYYYY(IsoDateString(c)) == d + "/" + m + "/" + y
  {
    var y := PadStart(DecimalString(c.year), 4);
    var m := PadStart(DecimalString(c.month), 2);
    var d := PadStart(DecimalString(c.day), 2);
    PadStartValue(c.year, 4);
    PadStartValue(c.month, 2);
    PadStartValue(c.day, 2);
    DigitsHaveNoDash(y);
    DigitsHaveNoDash(m);
    DigitsHaveNoDash(d);
    DateFieldWidths(c);
    assert IsoDateString(c) == y + "-" + m + "-" + d;
    FormatsThreeFields(y, m, d);
  }

  lemma DigitsHaveNoDash(s: string)
    requires AllDigits(s)
    ensures '-' !in s && '_' !in s
  {
    assert forall i :: 0 <= i < |s| ==> s[i] != '-' && s[i] != '_';
  }

  /** A non-empty text without a dash has one piece: it becomes the year, the others print as `undefined`. */
  lemma FormatsDashlessText(s: string)
    requires s != "" && '-' !in s
    ensures FormatDateDDMMYYYY(s) == "undefined/undefined/" + s
  {
    SplitWithoutSeparator(s, '-');
  }

  /* ---------------------------------------------------------------------
   * The overdue badge.
   * --------------------------------------------------------------------- */

  /** `isOverdue`: a CREDIT payment whose expected date (UTC midnight) is strictly before `now`. */
  function IsOverdue(p: Payment, now: Instant): (r: bool)
    ensures r ==> p.status == Credit && p.expectedPaymentDate.Some?
  {
    if p.status != Credit || p.expectedPaymentDate.None? then false
    else DayStart(p.expectedPaymentDate.value) < now
  }

  /** The badge and the `overdue_only` filter stage agree on every payment. */
  lemma IsOverdueMatchesFilter(p: Payment, now: Instant)
    ensures IsOverdue(p, now) <==>
      p.status == Credit && p.expectedPaymentDate.Some? && DayStart(p.expectedPaymentDate.value) < now
    ensures IsOverdue(p, now) == OverdueStage(p, now)
  {
  }

  /** With `overdue_only` set, every row of an offline answer carries the overdue badge. */
  lemma OverdueOnlyShowsOverdue(xs: seq<Payment>, f: SearchFilters, now: Instant)
    requires f.overdueOnly
    ensures forall p :: p in FilterPaymentsLocal(xs, f, now) ==> IsOverdue(p, now)
  {
    LocalFilterSelects(xs, f, now);
  }

  /* ---------------------------------------------------------------------
   * Selection.
   * --------------------------------------------------------------------- */

  /** The list update of `toggleSelection`: drop every copy of a selected id, or append an unselected one. */
  function Toggle(prev: seq<int>, id: int): (r: seq<int>)
    ensures id in r <==> id !in prev
    ensures forall x :: x != id ==> (x in r <==> x in prev)
    ensures id in prev ==> IsSubsequence(r, prev) && |r| < |prev|
    ensures id in prev ==> r == Filter(prev, x => x != id)
    ensures id !in prev ==> r == prev + [id]
  {
    if id in prev then
      var r := Filter(prev, x => x != id);
      assert forall x :: x != id && x in prev ==> x in r by {
        forall x | x != id && x in prev
          ensures x in r
        {
          var i :| 0 <= i < |prev| && prev[i] == x;
        }
      }
      RemovalShrinks(prev, id);
      r
    else prev + [id]
  }

  lemma {:induction false} RemovalShrinks(prev: seq<int>, id: int)
    requires id in prev
    ensures |Filter(prev, x => x != id)| < |prev|
  {
    if prev[0] != id {
      RemovalShrinks(prev[1..], id);
    }
  }

  /** Toggling the same id twice restores which ids are selected. */
  lemma ToggleTwiceRestoresMembership(prev: seq<int>, id: int)
    ensures forall x :: x in Toggle(Toggle(prev, id), id) <==> x in prev
  {
  }

  /** Selecting an id and deselecting it again gives back the very same list. */
  lemma SelectThenDeselect(prev: seq<int>, id: int)
    requires id !in prev
    ensures Toggle(Toggle(prev, id), id) == prev
  {
    FilterKeepsAll(prev, x => x != id);
    assert forall x :: x in prev + [id] ==> x in prev || x == id;
    FilterAppendDropped(prev, id);
  }

  /** Removing an id that was appended after a list without it leaves that list. */
  lemma {:induction false} FilterAppendDropped(prev: seq<int>, id: int)
    requires id !in prev
    ensures Filter(prev + [id], x => x != id) == prev
  {
    if prev == [] {
      assert [] + [id] == [id];
      assert Filter([id], x => x != id) == Filter([id][1..], x => x != id);
    } else {
      assert (prev + [id])[1..] == prev[1..] + [id];
      FilterAppendDropped(prev[1..], id);
      assert [prev[0]] + prev[1..] == prev;
    }
  }

  /** Deselecting and selecting again moves the id to the end: the order of the list is not restored. */
  lemma DeselectThenSelectMovesToEnd()
    ensures Toggle(Toggle([1, 2], 1), 1) == [2, 1]
  {
    assert Filter([1, 2], x => x != 1) == [2] by {
      assert [1, 2][1..] == [2];
      assert [2][1..] == [];
    }
  }

  /* ---------------------------------------------------------------------
   * The settle pre-check.
   * --------------------------------------------------------------------- */

  /** What `handleSettle` decides before asking for confirmation. */
  datatype SettlePlan =
    | NothingSelected
    | NotAllCredit(count: nat)
    | Settle(credits: seq<Payment>)

  /** The shown payments whose id is selected, in display order. */
  function Selected(payments: seq<Payment>, selectedIds: seq<int>): seq<Payment>
  {
    Filter(payments, (p: Payment) => p.id in selectedIds)
  }

  /**
   * An empty selection does nothing; any selected payment that is not a
   * CREDIT refuses the whole batch; otherwise every selected payment is
   * settled, and nothing else is.
   */
  function SettlePlanOf(payments: seq<Payment>, selectedIds: seq<int>): (plan: SettlePlan)
    ensures plan == NothingSelected <==> selectedIds == []
    ensures plan.NotAllCredit? <==>
      selectedIds != [] && exists p :: p in payments && p.id in selectedIds && p.status != Credit
    ensures plan.NotAllCredit? ==> plan.count > 0
    ensures plan.Settle? ==> IsSubsequence(plan.credits, payments)
    ensures plan.Settle? ==>
      forall p :: p in plan.credits <==> p in payments && p.id in selectedIds
    ensures plan.Settle? ==> forall p :: p in plan.credits ==> p.status == Credit
  {
    if selectedIds == [] then NothingSelected
    else
      var selected := Selected(payments, selectedIds);
      var paid := Filter(selected, (p: Payment) => p.status != Credit);
      if |paid| > 0 then
        assert paid[0] in selected;
        NotAllCredit(|paid|)
      else
        assert forall p :: p in payments && p.id in selectedIds ==> p in selected && p.status == Credit by {
          forall p | p in payments && p.id in selectedIds
            ensures p in selected && p.status == Credit
          {
            var i :| 0 <= i < |payments| && payments[i] == p;
            var j :| 0 <= j < |selected| && selected[j] == p;
          }
        }
        var credits := Filter(selected, (p: Payment) => p.status == Credit);
        FilterKeepsAll(selected, (p: Payment) => p.status == Credit);
        Settle(credits)
  }

  /** The ids handed to `settleCredit`, one request per credit. */
  function SettledIds(credits: seq<Payment>): (ids: seq<int>)
    ensures |ids| == |credits|
    ensures forall i :: 0 <= i < |ids| ==> ids[i] == credits[i].id
  {
    if credits == [] then [] else [credits[0].id] + SettledIds(credits[1..])
  }

  /** A selection left over from rows that are no longer shown settles nothing. */
  lemma LeftoverSelectionSettlesNothing(selectedIds: seq<int>)
    requires selectedIds != []
    ensures SettlePlanOf([], selectedIds) == Settle([])
  {
  }

  /* ---------------------------------------------------------------------
   * The component state.
   * --------------------------------------------------------------------- */

  const FiltersChanged: string := "Les filtres ont changé. Cliquez sur Rechercher pour charger les résultats."
  const IncompleteOffline: string :=
    "Attention : Les résultats peuvent être incomplets. Seules les données des 90 derniers jours sont disponibles hors ligne."

  /** The filter fields as the form holds them. */
  datatype Form = Form(supplierId: Option<int>, status: string, startDate: string, endDate: string, overdueOnly: bool)

  const EmptyForm: Form := Form(None, "", "", "", false)

  /** `String(n)` for any integer. */
  function NumberText(n: int): (s: string)
    ensures s != [] && (s[0] == '-' || IsDigit(s[0]))
    ensures s[0] == '-' <==> n < 0
    ensures '_' !in s
  {
    DigitsHaveNoDash(DecimalString(if n < 0 then -n else n));
    if n < 0 then "-" + DecimalString(-n) else DecimalString(n)
  }

  lemma NumberTextInjective(a: int, b: int)
    requires NumberText(a) == NumberText(b)
    ensures a == b
  {
    DecimalRoundTrip(if a < 0 then -a else a);
    DecimalRoundTrip(if b < 0 then -b else b);
    if a < 0 {
      assert NumberText(a)[1..] == DecimalString(-a);
      assert NumberText(b)[1..] == DecimalString(-b);
    }
  }

  /** A template literal's rendering of `supplierId`: `undefined` when unset. */
  function SupplierText(id: Option<int>): (s: string)
    ensures s != [] && (s[0] == 'u' <==> id.None?)
    ensures '_' !in s
  {
    match id
    case None => "undefined"
    case Some(n) => NumberText(n)
  }

  lemma SupplierTextInjective(a: Option<int>, b: Option<int>)
    requires SupplierText(a) == SupplierText(b)
    ensures a == b
  {
    if a.Some? {
      NumberTextInjective(a.value, b.value);
    }
  }

  function BoolText(b: bool): (s: string)
    ensures '_' !in s
  {
    if b then "true" else "false"
  }

  /** `currentFilterString`: the five fields joined by underscores. */
  function FilterString(f: Form): (s: string)
    ensures PlainForm(f) ==> Split(s, '_') == FilterFields(f)
  {
    var parts := FilterFields(f);
    if PlainForm(f) then
      assert forall i :: 0 <= i < |parts| ==> '_' !in parts[i];
      SplitJoin(parts, '_');
      Join(parts, '_')
    else Join(parts, '_')
  }

  function FilterFields(f: Form): seq<string>
  {
    [SupplierText(f.supplierId), f.status, f.startDate, f.endDate, BoolText(f.overdueOnly)]
  }

  /** The texts a form can hold never contain an underscore (a date, a status label). */
  predicate PlainForm(f: Form)
  {
    '_' !in f.status && '_' !in f.startDate && '_' !in f.endDate
  }

  /** The filter string is never empty, so an empty last-searched string means no search has succeeded. */
  lemma FilterStringNonEmpty(f: Form)
    ensures FilterString(f) != ""
  {
    var parts := FilterFields(f);
    assert |Join(parts, '_')| >= 1 + |Join(parts[1..], '_')|;
  }

  /** Two different forms give different filter strings. */
  lemma FilterStringInjective(f1: Form, f2: Form)
    requires PlainForm(f1) && PlainForm(f2)
    requires FilterString(f1) == FilterString(f2)
    ensures f1 == f2
  {
    var p1 := FilterFields(f1);
    var p2 := FilterFields(f2);
    JoinInjective(p1, p2, '_');
    assert p1[0] == p2[0] && p1[4] == p2[4];
    SupplierTextInjective(f1.supplierId, f2.supplierId);
  }

  /** A date field's value sent to the server: `startDate || undefined`. */
  function DateParam(text: string): (r: Option<Day>)
    ensures text == "" ==> r == None
    ensures r.Some? ==> ParseIsoDate(text).Some? && r.value == Ordinal(ParseIsoDate(text).value)
    ensures ParseIsoDate(text).Some? ==> r == Some(Ordinal(ParseIsoDate(text).value))
  {
    if text == "" then None
    else match ParseIsoDate(text)
      case Some(c) => Some(Ordinal(c))
      case None => None
  }

  /** The filters `handleSearch` passes to `searchPayments`. */
  function Params(f: Form): (p: SearchFilters)
    ensures p.status == ParseStatus(f.status)
    ensures p.supplierId == f.supplierId && p.overdueOnly == f.overdueOnly
    ensures p.startExpectedDate == DateParam(f.startDate) && p.endExpectedDate == DateParam(f.endDate)
  {
    SearchFilters(f.supplierId, ParseStatus(f.status), DateParam(f.startDate), DateParam(f.endDate), f.overdueOnly)
  }

  /** The component state that the handlers change. */
  datatype Screen = Screen(
    payments: seq<Payment>,
    selectedIds: seq<int>,
    loadError: string,
    cacheWarning: string,
    form: Form,
    lastSearchedFilters: string)

  const InitialScreen: Screen := Screen([], [], "", "", EmptyForm, "")

  /** The stale-filter effect: offline, once a search has succeeded, a different filter string drops the rows. */
  function StaleFilterClear(s: Screen, isOnline: bool): (t: Screen)
    ensures t.selectedIds == s.selectedIds && t.form == s.form && t.cacheWarning == s.cacheWarning
    ensures t.lastSearchedFilters == s.lastSearchedFilters
    ensures t != s ==> !isOnline && t.payments == [] && t.loadError == FiltersChanged
  {
    if !isOnline && s.lastSearchedFilters != "" && s.lastSearchedFilters != FilterString(s.form) then
      s.(payments := [], loadError := FiltersChanged)
    else s
  }

  /** The warning `handleSearch` shows before searching. */
  function SearchWarning(f: Form, isOnline: bool, now: Instant): (w: string)
    ensures w != "" <==> !isOnline && !IsDateRangeWithinCache(DateParam(f.startDate), DateParam(f.endDate), now)
  {
    if !isOnline && !IsDateRangeWithinCache(DateParam(f.startDate), DateParam(f.endDate), now) then IncompleteOffline
    else ""
  }

  /** The state after `handleSearch` settles with `r`. */
  function AfterSearch(s: Screen, isOnline: bool, now: Instant, r: Result<seq<Payment>>): (t: Screen)
    ensures t.selectedIds == [] && t.form == s.form
    ensures r.Ok? ==> t.payments == r.value && t.loadError == "" && t.lastSearchedFilters == FilterString(s.form)
    ensures r.Err? ==> t.payments == [] && t.loadError == r.message && t.cacheWarning == ""
                       && t.lastSearchedFilters == s.lastSearchedFilters
  {
    match r
    case Ok(rows) =>
      s.(payments := rows, selectedIds := [], loadError := "", cacheWarning := SearchWarning(s.form, isOnline, now),
         lastSearchedFilters := FilterString(s.form))
    case Err(message) =>
      s.(payments := [], selectedIds := [], loadError := message, cacheWarning := "")
  }

  /** What the user sees after `handleSettle`. */
  datatype SettleOutcome =
    | Ignored
    | RefusedNotCredit(count: nat)
    | Cancelled
    | Settled(count: nat)
    | SettleFailed(message: string)

  /** The server's answer to one settle request: `None` when it went through, or the error it reported. */
  function SettleReply(failure: Option<string>): Result<()>
  {
    match failure
    case None => Ok(())
    case Some(message) => Err(message)
  }

  /** `creditPayments.map(p => settleCredit(p.id))`: one guarded request per id, in order. */
  function SettleCalls(ids: seq<int>, isOnline: bool, response: int -> Option<string>): (calls: seq<WriteCall<()>>)
    ensures |calls| == |ids|
    ensures forall i :: 0 <= i < |calls| ==> (calls[i].sent <==> isOnline)
    ensures forall i :: 0 <= i < |calls| ==> (calls[i].result.Ok? <==> isOnline && response(ids[i]).None?)
    ensures forall i :: 0 <= i < |calls| && calls[i].result.Err? ==>
      calls[i].result.message == if isOnline then response(ids[i]).value else OfflineOperation
  {
    if ids == [] then []
    else [OnlineOnly(isOnline, SettleReply(response(ids[0])))] + SettleCalls(ids[1..], isOnline, response)
  }

  /**
   * `Promise.all` over the calls: fulfilled when every call was, otherwise
   * rejected with a rejection message, taken here as the first in list order.
   */
  function FirstRejection<T>(calls: seq<WriteCall<T>>): (r: Option<string>)
    ensures r.None? <==> forall i :: 0 <= i < |calls| ==> calls[i].result.Ok?
    ensures r.Some? ==> exists i :: 0 <= i < |calls| && calls[i].result == Err(r.value)
  {
    if calls == [] then None
    else if calls[0].result.Err? then Some(calls[0].result.message)
    else
      var r := FirstRejection(calls[1..]);
      assert r.Some? ==> exists i :: 0 <= i < |calls| && calls[i].result == Err(r.value) by {
        if r.Some? {
          var j :| 0 <= j < |calls[1..]| && calls[1..][j].result == Err(r.value);
          assert calls[j + 1] == calls[1..][j];
        }
      }
      r
  }

  /**
   * How the batch of `settleCredit` calls settles: with no credit it resolves
   * at once; offline nothing is sent and it rejects with the offline message;
   * online it resolves exactly when the server accepted every credit, and
   * otherwise rejects with an error the server reported for one of them.
   */
  function SettleRequests(credits: seq<Payment>, isOnline: bool, response: int -> Option<string>): (r: Option<string>)
    ensures credits == [] ==> r == None
    ensures credits != [] && !isOnline ==> r == Some(OfflineOperation)
    ensures isOnline ==> (r.None? <==> forall p :: p in credits ==> response(p.id).None?)
    ensures isOnline && r.Some? ==> exists p :: p in credits && response(p.id) == r
  {
    var ids := SettledIds(credits);
    var calls := SettleCalls(ids, isOnline, response);
    var r := FirstRejection(calls);
    assert credits != [] && !isOnline ==> calls[0].result == Err(OfflineOperation);
    assert isOnline && r.None? ==> forall p :: p in credits ==> response(p.id).None? by {
      if isOnline && r.None? {
        forall p | p in credits
          ensures response(p.id).None?
        {
          var i :| 0 <= i < |credits| && credits[i] == p;
          assert calls[i].result.Ok?;
        }
      }
    }
    assert isOnline && r.Some? ==> exists p :: p in credits && response(p.id) == r by {
      if isOnline && r.Some? {
        var i :| 0 <= i < |calls| && calls[i].result == Err(r.value);
        assert credits[i] in credits && response(credits[i].id) == r;
      }
    }
    r
  }

  /** Offline, no settle request of the batch reaches the server and each one is refused. */
  lemma OfflineSettleSendsNothing(credits: seq<Payment>, response: int -> Option<string>)
    ensures var calls := SettleCalls(SettledIds(credits), false, response);
            forall i :: 0 <= i < |calls| ==> !calls[i].sent && calls[i].result == Err(OfflineOperation)
  {
  }

  /** The outcome `handleSettle` reports. */
  function SettleOutcomeOf(plan: SettlePlan, confirmed: bool, isOnline: bool, response: int -> Option<string>)
    : (o: SettleOutcome)
    ensures o.Ignored? <==> plan.NothingSelected?
    ensures o.RefusedNotCredit? <==> plan.NotAllCredit?
    ensures (o.Settled? || o.SettleFailed?) ==> plan.Settle? && confirmed
    ensures o.Settled? ==> o.count == |plan.credits| && (isOnline || plan.credits == [])
    ensures o.SettleFailed? ==> plan.credits != []
  {
    match plan
    case NothingSelected => Ignored
    case NotAllCredit(count) => RefusedNotCredit(count)
    case Settle(credits) =>
      if !confirmed then Cancelled
      else match SettleRequests(credits, isOnline, response)
        case None => Settled(|credits|)
        case Some(message) => SettleFailed(message)
  }

  /** The settle flow runs a search (and clears the selection) only once every request went through. */
  lemma SettleRefreshesOnlyAfterSuccess(payments: seq<Payment>, selectedIds: seq<int>, confirmed: bool,
                                        isOnline: bool, response: int -> Option<string>)
    ensures var o := SettleOutcomeOf(SettlePlanOf(payments, selectedIds), confirmed, isOnline, response);
            o.Settled? <==>
              selectedIds != [] && confirmed
              && (forall p :: p in payments && p.id in selectedIds ==> p.status == Credit)
              && (isOnline || (forall p :: p in payments ==> p.id !in selectedIds))
              && (isOnline ==> forall p :: p in payments && p.id in selectedIds ==> response(p.id).None?)
  {
    var plan := SettlePlanOf(payments, selectedIds);
    if plan.Settle? && plan.credits != [] {
      assert plan.credits[0] in plan.credits;
    }
  }

  /** Offline, the only batch that "succeeds" is an empty one. */
  lemma OfflineSettlesNothing(payments: seq<Payment>, selectedIds: seq<int>, confirmed: bool,
                              response: int -> Option<string>)
    ensures var o := SettleOutcomeOf(SettlePlanOf(payments, selectedIds), confirmed, false, response);
            o.Settled? ==> o.count == 0
  {
  }

  /* ---------------------------------------------------------------------
   * Properties of the screen.
   * --------------------------------------------------------------------- */

  /** Right after a successful search the effect has nothing to clear. */
  lemma SearchedFiltersAreCurrent(s: Screen, isOnline: bool, effectOnline: bool, now: Instant, rows: seq<Payment>)
    ensures var t := AfterSearch(s, isOnline, now, Ok(rows));
            StaleFilterClear(t, effectOnline) == t
  {
  }

  /** Offline, editing the filters after a successful search drops the rows and asks for a new search. */
  lemma OfflineFilterChangeClears(s: Screen, isOnline: bool, now: Instant, rows: seq<Payment>, edited: Form)
    requires PlainForm(s.form) && PlainForm(edited) && edited != s.form
    ensures var t := AfterSearch(s, isOnline, now, Ok(rows)).(form := edited);
            StaleFilterClear(t, false) == t.(payments := [], loadError := FiltersChanged)
  {
    FilterStringNonEmpty(s.form);
    if FilterString(s.form) == FilterString(edited) {
      FilterStringInjective(s.form, edited);
    }
  }

  /** Online, or before any search has succeeded, the effect never clears anything. */
  lemma EffectIdleOnlineOrUnsearched(s: Screen, isOnline: bool)
    requires isOnline || s.lastSearchedFilters == ""
    ensures StaleFilterClear(s, isOnline) == s
  {
  }

  /** The effect keeps the selection, so a settle after it finds no selected row and settles nothing. */
  lemma StaleClearKeepsSelection(s: Screen)
    requires s.selectedIds != []
    requires s.lastSearchedFilters != "" && s.lastSearchedFilters != FilterString(s.form)
    ensures var t := StaleFilterClear(s, false);
            t.selectedIds == s.selectedIds && SettlePlanOf(t.payments, t.selectedIds) == Settle([])
  {
  }

  /** A failed search leaves no row, no selection and no warning, only the error. */
  lemma FailedSearchShowsOnlyError(s: Screen, isOnline: bool, now: Instant, message: string)
    ensures var t := AfterSearch(s, isOnline, now, Err(message));
            t.payments == [] && t.selectedIds == [] && t.cacheWarning == "" && t.loadError == message
            && t.lastSearchedFilters == s.lastSearchedFilters
  {
  }

  /** The incompleteness warning is only ever shown offline, and only for a range the window may not cover. */
  lemma WarningOnlyOffline(s: Screen, isOnline: bool, now: Instant, r: Result<seq<Payment>>)
    ensures var t := AfterSearch(s, isOnline, now, r);
            t.cacheWarning != "" ==>
              (!isOnline && r.Ok? && !IsDateRangeWithinCache(DateParam(s.form.startDate), DateParam(s.form.endDate), now))
  {
  }

  /** `PaymentsSearch` with the state its handlers update. */
  class SearchScreen {
    var payments: seq<Payment>
    var selectedIds: seq<int>
    var loadError: string
    var cacheWarning: string
    var form: Form
    var lastSearchedFilters: string

    function Snapshot(): Screen
      reads this
    {
      Screen(payments, selectedIds, loadError, cacheWarning, form, lastSearchedFilters)
    }

    constructor ()
      ensures Snapshot() == InitialScreen
    {
      payments := [];
      selectedIds := [];
      loadError := "";
      cacheWarning := "";
      form := EmptyForm;
      lastSearchedFilters := "";
    }

    /** The user edits the filter fields. */
    method SetForm(f: Form)
      modifies this
      ensures Snapshot() == old(Snapshot()).(form := f)
    {
      form := f;
    }

    /** The effect on `currentFilterString`, `lastSearchedFilters` and `isOnline`. */
    method StaleFilterEffect(isOnline: bool)
      modifies this
      ensures Snapshot() == StaleFilterClear(old(Snapshot()), isOnline)
    {
      if !isOnline && lastSearchedFilters != "" && lastSearchedFilters != FilterString(form) {
        payments := [];
        loadError := FiltersChanged;
      }
    }

    /** `handleSearch`, answered by `searchPayments` over `store`. */
    method HandleSearch(store: Store<Cached>, isOnline: bool, outcome: Fetch<seq<Payment>>, now: Instant,
                        writeOk: bool)
      modifies this, store
      ensures Snapshot() ==
        AfterSearch(old(Snapshot()), isOnline, now, SearchResult(old(store.items), Params(old(form)), isOnline, outcome, now))
      ensures store.items == SearchStorage(old(store.items), isOnline, outcome, now, writeOk)
    {
      loadError := "";
      cacheWarning := "";
      if !isOnline && !IsDateRangeWithinCache(DateParam(form.startDate), DateParam(form.endDate), now) {
        cacheWarning := IncompleteOffline;
      }
      ghost var before := old(Snapshot());
      assert cacheWarning == SearchWarning(before.form, isOnline, now);
      var results := SearchPayments(store, Params(form), isOnline, outcome, now, writeOk);
      assert results == SearchResult(old(store.items), Params(before.form), isOnline, outcome, now);
      match results
      case Ok(rows) =>
        payments := rows;
        selectedIds := [];
        lastSearchedFilters := FilterString(form);
      case Err(message) =>
        payments := [];
        selectedIds := [];
        cacheWarning := "";
        loadError := message;
    }

    /** `toggleSelection`. */
    method ToggleSelection(id: int)
      modifies this
      ensures Snapshot() == old(Snapshot()).(selectedIds := Toggle(old(selectedIds), id))
    {
      selectedIds := Toggle(selectedIds, id);
    }

    /**
     * `handleSettle`: check the selection, ask for confirmation, settle every
     * selected credit, then search again and clear the selection.
     */
    method HandleSettle(store: Store<Cached>, confirmed: bool, isOnline: bool, response: int -> Option<string>,
                        outcome: Fetch<seq<Payment>>, now: Instant, writeOk: bool)
      returns (o: SettleOutcome)
      modifies this, store
      ensures o == SettleOutcomeOf(SettlePlanOf(old(payments), old(selectedIds)), confirmed, isOnline, response)
      ensures o.Settled? ==>
        Snapshot() == AfterSearch(old(Snapshot()), isOnline, now,
                                  SearchResult(old(store.items), Params(old(form)), isOnline, outcome, now))
        && store.items == SearchStorage(old(store.items), isOnline, outcome, now, writeOk)
      ensures !o.Settled? ==> Snapshot() == old(Snapshot()) && store.items == old(store.items)
    {
      var plan := SettlePlanOf(payments, selectedIds);
      match plan
      case NothingSelected =>
        return Ignored;
      case NotAllCredit(count) =>
        return RefusedNotCredit(count);
      case Settle(credits) =>
        if !confirmed {
          return Cancelled;
        }
        var failure := SettleRequests(credits, isOnline, response);
        if failure.Some? {
          return SettleFailed(failure.value);
        }
        HandleSearch(store, isOnline, outcome, now, writeOk);
        selectedIds := [];
        o := Settled(|credits|);
    }
  }
}
