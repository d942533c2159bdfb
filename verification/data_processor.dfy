/** `process_alerts` and `format_timestamp`: alert records, as decoded dicts, become
    rows of a fixed 17-column table. */
module DataProcessor {
  import opened Wrappers
  import opened Json

  /** The output columns. */
  datatype Column =
    | AlertId | AlertAlias | Message | Status | Priority
    | CreatedAt | UpdatedAt
    | AcknowledgedBy | AcknowledgedAt
    | AssignedTo | AssignedAt
    | ClosedBy | ClosedAt
    | Source | Integration | Tags | Description
  {
    /** The column's header. */
    function Name(): string {
      match this
      case AlertId => "Alert ID"
      case AlertAlias => "Alert Alias"
      case Message => "Message"
      case Status => "Status"
      case Priority => "Priority"
      case CreatedAt => "Created At"
      case UpdatedAt => "Updated At"
      case AcknowledgedBy => "Acknowledged By"
      case AcknowledgedAt => "Acknowledged At"
      case AssignedTo => "Assigned To"
      case AssignedAt => "Assigned At"
      case ClosedBy => "Closed By"
      case ClosedAt => "Closed At"
      case Source => "Source"
      case Integration => "Integration"
      case Tags => "Tags"
      case Description => "Description"
    }
  }

  /** The display order of the columns. */
  const ColumnOrder: seq<Column> := [
    AlertId, AlertAlias, Message, Status, Priority,
    CreatedAt, UpdatedAt,
    AcknowledgedBy, AcknowledgedAt,
    AssignedTo, AssignedAt,
    ClosedBy, ClosedAt,
    Source, Integration, Tags, Description]

  function Names(cols: seq<Column>): (names: seq<string>)
    ensures |names| == |cols|
    ensures forall j :: 0 <= j < |cols| ==> names[j] == cols[j].Name()
  {
    seq(|cols|, j requires 0 <= j < |cols| => cols[j].Name())
  }

  /** Where a column stands in the display order. */
  function Position(c: Column): (k: nat)
    ensures k < |ColumnOrder| && ColumnOrder[k] == c
  {
    match c
    case AlertId => 0
    case AlertAlias => 1
    case Message => 2
    case Status => 3
    case Priority => 4
    case CreatedAt => 5
    case UpdatedAt => 6
    case AcknowledgedBy => 7
    case AcknowledgedAt => 8
    case AssignedTo => 9
    case AssignedAt => 10
    case ClosedBy => 11
    case ClosedAt => 12
    case Source => 13
    case Integration => 14
    case Tags => 15
    case Description => 16
  }

  /** The 17 headers are distinct. */
  lemma HeadersAreDistinct()
    ensures |Names(ColumnOrder)| == 17
    ensures forall i, j :: 0 <= i < j < |ColumnOrder| ==> Names(ColumnOrder)[i] != Names(ColumnOrder)[j]
  {
  }

  /** The display order lists every column exactly once. */
  lemma ColumnOrderIsComplete()
    ensures |ColumnOrder| == 17
    ensures forall c: Column :: c in ColumnOrder
    ensures forall i :: 0 <= i < |ColumnOrder| ==> Position(ColumnOrder[i]) == i
  {
    forall c: Column
      ensures c in ColumnOrder
    {
      assert ColumnOrder[Position(c)] == c;
    }
  }

  /** The columns copied from a top-level alert field, `''` when the field is missing. */
  const CopiedFields: seq<(Column, string)> := [
    (AlertId, "id"), (AlertAlias, "alias"), (Message, "message"),
    (Description, "description"), (Status, "status"), (Priority, "priority"),
    (Source, "source")]

  /** The columns holding a formatted top-level timestamp. */
  const TimestampFields: seq<(Column, string)> := [(CreatedAt, "createdAt"), (UpdatedAt, "updatedAt")]

  /** `dateutil.parser.parse` followed by `strftime('%Y-%m-%d %H:%M:%S')`, left
      uninterpreted: None stands for the ValueError or TypeError the parser raises. */
  type Parser = string -> Option<string>

  /** `format_timestamp` (lines 89-106): `''` for a missing or empty value, the original
      value when parsing fails (a non-string value always fails), the formatted text otherwise. */
  function FormatTimestamp(v: Json, parse: Parser): (r: Json)
    ensures !Truthy(v) ==> r == Empty
    ensures Truthy(v) && (!v.Str? || parse(v.s).None?) ==> r == v
    ensures Truthy(v) && v.Str? && parse(v.s).Some? ==> r == Str(parse(v.s).value)
  {
    if !Truthy(v) then Empty
    else if v.Str? && parse(v.s).Some? then Str(parse(v.s).value)
    else v
  }

  // ---------------------------------------------------------------------------
  // The audit-log scan (lines 44-63)

  /** The three kinds of log entry that fill a column pair. */
  datatype Action = Acknowledge | Assign | Close

  /** The action a log entry's `type` names, if any. */
  function ActionOf(logType: Json): Option<Action> {
    if logType == Str("AcknowledgeAlert") then Some(Acknowledge)
    else if logType == Str("AssignOwnership") then Some(Assign)
    else if logType == Str("CloseAlert") then Some(Close)
    else None
  }

  /** A "by"/"at" column pair: the owner and the time. */
  datatype Claim = Claim(owner: Json, time: Json)

  const Unclaimed := Claim(Empty, Empty)

  /** The three column pairs the scan fills. */
  datatype Audit = Audit(ack: Claim, assign: Claim, close: Claim) {
    function Get(a: Action): Claim {
      match a
      case Acknowledge => ack
      case Assign => assign
      case Close => close
    }

    function Set(a: Action, c: Claim): (r: Audit)
      ensures r.Get(a) == c
      ensures forall b :: b != a ==> r.Get(b) == Get(b)
    {
      match a
      case Acknowledge => this.(ack := c)
      case Assign => this.(assign := c)
      case Close => this.(close := c)
    }
  }

  const NoAudit := Audit(Unclaimed, Unclaimed, Unclaimed)

  function LogAction(log: Object): Option<Action> {
    ActionOf(GetOr(log, "type", Empty))
  }

  /** The pair a log entry would write: its `owner` and its formatted `createdAt`. */
  function LogClaim(log: Object, parse: Parser): Claim {
    Claim(GetOr(log, "owner", Empty), FormatTimestamp(GetOr(log, "createdAt", Empty), parse))
  }

  /** A log entry of action `a` whose owner is non-empty: the first such entry fixes the pair. */
  predicate Claims(log: Object, a: Action) {
    LogAction(log) == Some(a) && Truthy(GetOr(log, "owner", Empty))
  }

  /** One iteration of the loop over the logs. */
  function ScanStep(audit: Audit, log: Object, parse: Parser): (next: Audit)
    // an entry touches at most the pair of its own action; other types change nothing
    ensures forall a :: LogAction(log) != Some(a) ==> next.Get(a) == audit.Get(a)
    // a pair whose owner is already non-empty is never overwritten
    ensures forall a :: Truthy(audit.Get(a).owner) ==> next.Get(a) == audit.Get(a)
    // otherwise the entry's pair is written
    ensures forall a :: LogAction(log) == Some(a) && !Truthy(audit.Get(a).owner) ==> next.Get(a) == LogClaim(log, parse)
  {
    match LogAction(log)
    case None => audit
    case Some(a) => if Truthy(audit.Get(a).owner) then audit else audit.Set(a, LogClaim(log, parse))
  }

  /** The loop over the logs, in order. */
  function Scan(audit: Audit, logs: seq<Object>, parse: Parser): Audit
    decreases |logs|
  {
    if logs == [] then audit else Scan(ScanStep(audit, logs[0], parse), logs[1..], parse)
  }

  /** A pair whose owner is non-empty stays as it is for the rest of the scan. */
  lemma {:induction false} ScanKeepsLocked(audit: Audit, logs: seq<Object>, parse: Parser, a: Action)
    requires Truthy(audit.Get(a).owner)
    ensures Scan(audit, logs, parse).Get(a) == audit.Get(a)
    decreases |logs|
  {
    if logs != [] {
      ScanKeepsLocked(ScanStep(audit, logs[0], parse), logs[1..], parse, a);
    }
  }

  /** The first entry of action `a` with a non-empty owner decides the pair for good. */
  lemma {:induction false} ScanFirstClaimWins(audit: Audit, logs: seq<Object>, parse: Parser, a: Action, i: nat)
    requires !Truthy(audit.Get(a).owner)
    requires i < |logs| && Claims(logs[i], a)
    requires forall j :: 0 <= j < i ==> !Claims(logs[j], a)
    ensures Scan(audit, logs, parse).Get(a) == LogClaim(logs[i], parse)
    decreases |logs|
  {
    var next := ScanStep(audit, logs[0], parse);
    if i == 0 {
      ScanKeepsLocked(next, logs[1..], parse, a);
    } else {
      assert !Claims(logs[0], a);
      ScanFirstClaimWins(next, logs[1..], parse, a, i - 1);
    }
  }

  /** The entries of action `a`, in order. */
  function OfAction(logs: seq<Object>, a: Action): (r: seq<Object>)
    ensures |r| <= |logs|
  {
    if logs == [] then []
    else if LogAction(logs[0]) == Some(a) then [logs[0]] + OfAction(logs[1..], a)
    else OfAction(logs[1..], a)
  }

  /** Entries of other actions, and entries of no action at all, do not affect a pair. */
  lemma {:induction false} ScanSeesOnlyItsAction(audit: Audit, logs: seq<Object>, parse: Parser, a: Action)
    ensures Scan(audit, logs, parse).Get(a) == Scan(audit, OfAction(logs, a), parse).Get(a)
    decreases |logs|
  {
    if logs != [] {
      var next := ScanStep(audit, logs[0], parse);
      ScanSeesOnlyItsAction(next, logs[1..], parse, a);
      if LogAction(logs[0]) == Some(a) {
        assert OfAction(logs, a)[1..] == OfAction(logs[1..], a);
      } else {
        assert next.Get(a) == audit.Get(a);
        ScanSameStart(next, audit, OfAction(logs[1..], a), parse, a);
      }
    }
  }

  /** Two scans whose pair `a` starts out equal end with pair `a` equal. */
  lemma {:induction false} ScanSameStart(x: Audit, y: Audit, logs: seq<Object>, parse: Parser, a: Action)
    requires x.Get(a) == y.Get(a)
    ensures Scan(x, logs, parse).Get(a) == Scan(y, logs, parse).Get(a)
    decreases |logs|
  {
    if logs != [] {
      ScanSameStart(ScanStep(x, logs[0], parse), ScanStep(y, logs[0], parse), logs[1..], parse, a);
    }
  }

  /** When no entry of action `a` has a non-empty owner, each of them overwrites the
      pair in turn: the pair ends as the last such entry wrote it (its time included), or
      as it started when there is none. */
  lemma {:induction false} ScanWithoutClaim(audit: Audit, logs: seq<Object>, parse: Parser, a: Action)
    requires !Truthy(audit.Get(a).owner)
    requires forall j :: 0 <= j < |logs| ==> !Claims(logs[j], a)
    ensures var own := OfAction(logs, a);
            Scan(audit, logs, parse).Get(a) == if own == [] then audit.Get(a) else LogClaim(own[|own| - 1], parse)
    decreases |logs|
  {
    if logs != [] {
      var next := ScanStep(audit, logs[0], parse);
      ScanWithoutClaim(next, logs[1..], parse, a);
      assert !Claims(logs[0], a);
      if LogAction(logs[0]) == Some(a) {
        var rest := OfAction(logs[1..], a);
        assert OfAction(logs, a) == [logs[0]] + rest;
      }
    }
  }

  /** Without an entry of action `a` that has a non-empty owner, the pair's owner stays
      empty. */
  lemma {:induction false} ScanStaysUnclaimed(audit: Audit, logs: seq<Object>, parse: Parser, a: Action)
    requires !Truthy(audit.Get(a).owner)
    requires forall j :: 0 <= j < |logs| ==> !Claims(logs[j], a)
    ensures !Truthy(Scan(audit, logs, parse).Get(a).owner)
    decreases |logs|
  {
    if logs != [] {
      assert !Claims(logs[0], a);
      ScanStaysUnclaimed(ScanStep(audit, logs[0], parse), logs[1..], parse, a);
    }
  }

  // ---------------------------------------------------------------------------
  // One row per alert (lines 22-69)

  /** The shapes the code relies on: a truthy `integration` is a dict, `tags` is a list
      of strings, `logs` is a list of dicts. */
  predicate Shaped(alert: Object) {
    && ("integration" in alert && Truthy(alert["integration"]) ==> alert["integration"].Obj?)
    && ("tags" in alert ==> alert["tags"].Arr? && forall t :: t in alert["tags"].items ==> t.Str?)
    && ("logs" in alert ==> alert["logs"].Arr? && forall l :: l in alert["logs"].items ==> l.Obj?)
  }

  function Logs(alert: Object): (logs: seq<Object>)
    requires Shaped(alert)
    ensures "logs" !in alert ==> logs == []
  {
    if "logs" in alert then
      var items := alert["logs"].items;
      seq(|items|, i requires 0 <= i < |items| => items[i].fields)
    else []
  }

  /** The alert's tags, in order. */
  function TagNames(alert: Object): (tags: seq<string>)
    requires Shaped(alert)
    ensures "tags" !in alert ==> tags == []
    ensures "tags" in alert ==>
              |tags| == |alert["tags"].items| &&
              forall i :: 0 <= i < |tags| ==> tags[i] == alert["tags"].items[i].s
  {
    if "tags" in alert then
      var items := alert["tags"].items;
      seq(|items|, i requires 0 <= i < |items| => items[i].s)
    else []
  }

  /** `sep.join(parts)`. */
  function Join(parts: seq<string>, sep: string): string {
    if parts == [] then ""
    else if |parts| == 1 then parts[0]
    else parts[0] + sep + Join(parts[1..], sep)
  }

  function TotalLength(parts: seq<string>): nat {
    if parts == [] then 0 else |parts[0]| + TotalLength(parts[1..])
  }

  /** The joined text is as long as the parts plus one separator between each two. */
  lemma {:induction false} JoinLength(parts: seq<string>, sep: string)
    ensures |Join(parts, sep)| == TotalLength(parts) + (if parts == [] then 0 else (|parts| - 1) * |sep|)
    decreases |parts|
  {
    if |parts| > 1 {
      JoinLength(parts[1..], sep);
      assert (|parts| - 1) * |sep| == (|parts| - 2) * |sep| + |sep|;
    }
  }

  /** Where part `i` starts in the joined text: after the parts before it and one
      separator for each of them. */
  function PartStart(parts: seq<string>, sep: string, i: nat): nat
    requires i <= |parts|
  {
    TotalLength(parts[..i]) + i * |sep|
  }

  lemma SliceAfter(a: string, b: string, x: nat, y: nat)
    requires x <= y <= |b|
    ensures (a + b)[|a| + x..|a| + y] == b[x..y]
  {
    assert forall k :: 0 <= k < y - x ==> (a + b)[|a| + x..|a| + y][k] == b[x..y][k];
  }

  /** Past the first part, positions in the join are positions in the join of the rest,
      moved by the first part and one separator. */
  lemma PartStartShift(parts: seq<string>, sep: string, i: nat)
    requires 0 < i <= |parts|
    ensures PartStart(parts, sep, i) == |parts[0]| + |sep| + PartStart(parts[1..], sep, i - 1)
  {
    assert parts[..i][1..] == parts[1..][..i - 1];
  }

  /** Part `i` stands at its start in the joined text. */
  lemma {:induction false} JoinPlacesPart(parts: seq<string>, sep: string, i: nat)
    requires i < |parts|
    ensures PartStart(parts, sep, i) + |parts[i]| <= |Join(parts, sep)|
    ensures Join(parts, sep)[PartStart(parts, sep, i)..PartStart(parts, sep, i) + |parts[i]|] == parts[i]
    decreases i
  {
    assert parts[..0] == [];
    if |parts| > 1 && i > 0 {
      var rest := parts[1..];
      var o' := PartStart(rest, sep, i - 1);
      JoinPlacesPart(rest, sep, i - 1);
      PartStartShift(parts, sep, i);
      SliceAfter(parts[0] + sep, Join(rest, sep), o', o' + |rest[i - 1]|);
    }
  }

  /** Every part but the last is followed by the separator. */
  lemma {:induction false} JoinPlacesSeparator(parts: seq<string>, sep: string, i: nat)
    requires i + 1 < |parts|
    ensures var e := PartStart(parts, sep, i) + |parts[i]|;
            e + |sep| <= |Join(parts, sep)| && Join(parts, sep)[e..e + |sep|] == sep
    decreases i
  {
    assert parts[..0] == [];
    var rest := parts[1..];
    if i > 0 {
      var o' := PartStart(rest, sep, i - 1);
      JoinPlacesSeparator(rest, sep, i - 1);
      PartStartShift(parts, sep, i);
      SliceAfter(parts[0] + sep, Join(rest, sep), o' + |rest[i - 1]|, o' + |rest[i - 1]| + |sep|);
    } else {
      assert Join(parts, sep) == parts[0] + sep + Join(rest, sep);
      assert (parts[0] + sep + Join(rest, sep))[|parts[0]|..|parts[0]| + |sep|] == sep;
    }
  }

  /** The integration's name when `integration` is truthy, `''` otherwise. */
  function IntegrationName(alert: Object): Json
    requires Shaped(alert)
  {
    var integration := GetOr(alert, "integration", Null);
    if Truthy(integration) then GetOr(integration.fields, "name", Empty) else Empty
  }

  /** The scan over the alert's logs. */
  function AlertAudit(alert: Object, parse: Parser): Audit
    requires Shaped(alert)
  {
    Scan(NoAudit, Logs(alert), parse)
  }

  /** `Assigned To`: the scan's owner, or the alert's own truthy `owner` when the scan
      found none. */
  function AssignedOwner(alert: Object, parse: Parser): Json
    requires Shaped(alert)
  {
    var scanned := AlertAudit(alert, parse).assign.owner;
    var owner := GetOr(alert, "owner", Null);
    if !Truthy(scanned) && Truthy(owner) then owner else scanned
  }

  /** The value the row dict holds under column `c`, after the log scan and the owner
      fallback. */
  function Field(alert: Object, parse: Parser, c: Column): Json
    requires Shaped(alert)
  {
    match c
    case AlertId => GetOr(alert, "id", Empty)
    case AlertAlias => GetOr(alert, "alias", Empty)
    case Message => GetOr(alert, "message", Empty)
    case Description => GetOr(alert, "description", Empty)
    case Status => GetOr(alert, "status", Empty)
    case Priority => GetOr(alert, "priority", Empty)
    case CreatedAt => FormatTimestamp(GetOr(alert, "createdAt", Empty), parse)
    case UpdatedAt => FormatTimestamp(GetOr(alert, "updatedAt", Empty), parse)
    case Source => GetOr(alert, "source", Empty)
    case AcknowledgedBy => AlertAudit(alert, parse).ack.owner
    case AcknowledgedAt => AlertAudit(alert, parse).ack.time
    case AssignedTo => AssignedOwner(alert, parse)
    case AssignedAt => AlertAudit(alert, parse).assign.time
    case ClosedBy => AlertAudit(alert, parse).close.owner
    case ClosedAt => AlertAudit(alert, parse).close.time
    case Integration => IntegrationName(alert)
    case Tags => Str(Join(TagNames(alert), ", "))
  }

  /** The row dict for one alert: one entry per column. */
  function BuildRow(alert: Object, parse: Parser): (row: map<Column, Json>)
    requires Shaped(alert)
    ensures forall c: Column :: c in row && row[c] == Field(alert, parse, c)
  {
    ColumnOrderIsComplete();
    map c | c in ColumnOrder :: Field(alert, parse, c)
  }

  /** A plain field is copied, `''` when it is missing. */
  lemma RowCopiesField(alert: Object, parse: Parser, column: Column, key: string)
    requires Shaped(alert)
    requires (column, key) in CopiedFields
    ensures key in alert ==> Field(alert, parse, column) == alert[key]
    ensures key !in alert ==> Field(alert, parse, column) == Str("")
  {
  }

  /** A timestamp field is formatted, `''` when it is missing. */
  lemma RowFormatsTimestamp(alert: Object, parse: Parser, column: Column, key: string)
    requires Shaped(alert)
    requires (column, key) in TimestampFields
    ensures key in alert ==> Field(alert, parse, column) == FormatTimestamp(alert[key], parse)
    ensures key !in alert ==> Field(alert, parse, column) == Str("")
  {
  }

  /** `Tags` is the tags in order with ", " between each two: each tag stands at its
      position and is followed by ", " unless it is the last, and the length leaves room
      for nothing else. It is `''` without tags. */
  lemma RowJoinsTags(alert: Object, parse: Parser)
    requires Shaped(alert)
    ensures var tags := Field(alert, parse, Tags);
            var names := TagNames(alert);
            && tags.Str?
            && ("tags" !in alert || alert["tags"].items == [] ==> tags == Str(""))
            && ("tags" in alert && |alert["tags"].items| == 1 ==> tags == alert["tags"].items[0])
            && |tags.s| == TotalLength(names) + (if names == [] then 0 else (|names| - 1) * 2)
            && forall i :: 0 <= i < |names| ==>
                 var o := PartStart(names, ", ", i);
                 && o + |names[i]| <= |tags.s|
                 && tags.s[o..o + |names[i]|] == names[i]
                 && (i + 1 < |names| ==>
                       o + |names[i]| + 2 <= |tags.s| && tags.s[o + |names[i]|..o + |names[i]| + 2] == ", ")
  {
    var names := TagNames(alert);
    JoinLength(names, ", ");
    forall i | 0 <= i < |names|
      ensures var o := PartStart(names, ", ", i);
              && o + |names[i]| <= |Join(names, ", ")|
              && Join(names, ", ")[o..o + |names[i]|] == names[i]
              && (i + 1 < |names| ==> o + |names[i]| + 2 <= |Join(names, ", ")| &&
                                      Join(names, ", ")[o + |names[i]|..o + |names[i]| + 2] == ", ")
    {
      JoinPlacesPart(names, ", ", i);
      if i + 1 < |names| {
        JoinPlacesSeparator(names, ", ", i);
      }
    }
  }

  /** `Integration` is the integration's `name` (or `''`) when `integration` is truthy,
      and `''` otherwise. */
  lemma RowReadsIntegration(alert: Object, parse: Parser)
    requires Shaped(alert)
    ensures var cell := Field(alert, parse, Integration);
            && ("integration" !in alert || !Truthy(alert["integration"]) ==> cell == Str(""))
            && ("integration" in alert && Truthy(alert["integration"]) ==>
                  var fields := alert["integration"].fields;
                  cell == if "name" in fields then fields["name"] else Str(""))
  {
  }

  /** The row's pair of columns for action `a`. */
  function PairColumns(a: Action): (Column, Column) {
    match a
    case Acknowledge => (AcknowledgedBy, AcknowledgedAt)
    case Assign => (AssignedTo, AssignedAt)
    case Close => (ClosedBy, ClosedAt)
  }

  /** The row's pair for action `a` shows the scan's pair; the owner shows unchanged
      when the scan found one. */
  lemma RowShowsPair(alert: Object, parse: Parser, a: Action)
    requires Shaped(alert)
    ensures Field(alert, parse, PairColumns(a).1) == AlertAudit(alert, parse).Get(a).time
    ensures Truthy(AlertAudit(alert, parse).Get(a).owner) ==>
              Field(alert, parse, PairColumns(a).0) == AlertAudit(alert, parse).Get(a).owner
  {
  }

  /** The first log entry of action `a` with a non-empty owner fills the pair with its
      owner and formatted time; the alert's own `owner` does not override it. */
  lemma RowTakesFirstClaim(alert: Object, parse: Parser, a: Action, i: nat)
    requires Shaped(alert)
    requires i < |Logs(alert)| && Claims(Logs(alert)[i], a)
    requires forall j :: 0 <= j < i ==> !Claims(Logs(alert)[j], a)
    ensures Field(alert, parse, PairColumns(a).0) == LogClaim(Logs(alert)[i], parse).owner
    ensures Field(alert, parse, PairColumns(a).1) == LogClaim(Logs(alert)[i], parse).time
  {
    ScanFirstClaimWins(NoAudit, Logs(alert), parse, a, i);
    RowShowsPair(alert, parse, a);
  }

  /** With no assignment entry carrying an owner, a truthy top-level `owner` becomes
      `Assigned To`; `Assigned At` keeps what the scan left (`''` when there was no
      assignment entry at all). */
  lemma RowFallsBackToOwner(alert: Object, parse: Parser)
    requires Shaped(alert)
    requires forall j :: 0 <= j < |Logs(alert)| ==> !Claims(Logs(alert)[j], Assign)
    requires "owner" in alert && Truthy(alert["owner"])
    ensures Field(alert, parse, AssignedTo) == alert["owner"]
    ensures Field(alert, parse, AssignedAt) == AlertAudit(alert, parse).assign.time
    ensures OfAction(Logs(alert), Assign) == [] ==> Field(alert, parse, AssignedAt) == Str("")
  {
    ScanWithoutClaim(NoAudit, Logs(alert), parse, Assign);
    ScanStaysUnclaimed(NoAudit, Logs(alert), parse, Assign);
    var audit := AlertAudit(alert, parse);
    assert !Truthy(audit.assign.owner);
    assert Field(alert, parse, AssignedTo) == alert["owner"];
    assert Field(alert, parse, AssignedAt) == audit.assign.time;
  }

  // ---------------------------------------------------------------------------
  // The table (lines 16-21, 69-87)

  /** A DataFrame: its column headers and its rows of cells. */
  datatype Table = Table(columns: seq<string>, rows: seq<seq<Json>>)

  /** `df.empty`: no rows or no columns. */
  predicate IsEmpty(t: Table) {
    t.rows == [] || t.columns == []
  }

  /** The AttributeError or TypeError raised on the first alert of an unexpected shape. */
  datatype ShapeError = ShapeError(index: nat)

  function FirstMalformed(alerts: seq<Object>): (r: Option<nat>)
    ensures r.None? <==> forall i :: 0 <= i < |alerts| ==> Shaped(alerts[i])
    ensures r.Some? ==> r.value < |alerts| && !Shaped(alerts[r.value]) &&
                        forall j :: 0 <= j < r.value ==> Shaped(alerts[j])
  {
    if alerts == [] then None
    else if !Shaped(alerts[0]) then Some(0)
    else match FirstMalformed(alerts[1..])
      case None => None
      case Some(i) => Some(i + 1)
  }

  /** `existing_columns`: the columns of `order` that some row has (a DataFrame built
      from dicts has the union of their keys as columns). */
  function PresentColumns(order: seq<Column>, rows: seq<map<Column, Json>>): (cols: seq<Column>)
    ensures |cols| <= |order|
  {
    if order == [] then []
    else if exists r :: r in rows && order[0] in r then [order[0]] + PresentColumns(order[1..], rows)
    else PresentColumns(order[1..], rows)
  }

  /** Since every row dict has every column, the filter keeps the whole order. */
  lemma {:induction false} AllColumnsPresent(order: seq<Column>, rows: seq<map<Column, Json>>)
    requires rows != []
    requires forall r, c: Column :: r in rows ==> c in r
    ensures PresentColumns(order, rows) == order
    decreases |order|
  {
    if order != [] {
      assert rows[0] in rows && order[0] in rows[0];
      AllColumnsPresent(order[1..], rows);
    }
  }

  /** `df[cols]` for the DataFrame built from `rows`: a missing entry shows as null. */
  function Frame(cols: seq<Column>, rows: seq<map<Column, Json>>): (t: Table)
    ensures t.columns == Names(cols) && |t.rows| == |rows|
    ensures forall i :: 0 <= i < |rows| ==> |t.rows[i]| == |cols|
    ensures forall i, j :: 0 <= i < |rows| && 0 <= j < |cols| ==>
              t.rows[i][j] == if cols[j] in rows[i] then rows[i][cols[j]] else Null
  {
    Table(Names(cols), seq(|rows|, i requires 0 <= i < |rows| =>
                         seq(|cols|, j requires 0 <= j < |cols| =>
                           if cols[j] in rows[i] then rows[i][cols[j]] else Null)))
  }

  lemma FrameHoldsFields(alerts: seq<Object>, parse: Parser, rows: seq<map<Column, Json>>)
    requires forall i :: 0 <= i < |alerts| ==> Shaped(alerts[i])
    requires |rows| == |alerts| && forall i :: 0 <= i < |alerts| ==> rows[i] == BuildRow(alerts[i], parse)
    ensures forall i, j :: 0 <= i < |alerts| && 0 <= j < |ColumnOrder| ==>
              Frame(ColumnOrder, rows).rows[i][j] == Field(alerts[i], parse, ColumnOrder[j])
  {
  }

  /** `process_alerts` (lines 6-87). */
  function ProcessAlerts(alerts: seq<Object>, parse: Parser): (r: Result<Table, ShapeError>)
    ensures alerts == [] ==> r == Success(Table([], []))
    ensures r.Failure? <==> exists i :: 0 <= i < |alerts| && !Shaped(alerts[i])
    ensures r.Failure? ==> r.error.index < |alerts| && !Shaped(alerts[r.error.index]) &&
                           forall j :: 0 <= j < r.error.index ==> Shaped(alerts[j])
    // one row per alert, in input order, under exactly the 17 headers in display order
    ensures r.Success? && alerts != [] ==>
              && r.value.columns == Names(ColumnOrder)
              && |r.value.rows| == |alerts|
              && forall i :: 0 <= i < |alerts| ==>
                   && Shaped(alerts[i])
                   && |r.value.rows[i]| == |ColumnOrder|
                   && forall j :: 0 <= j < |ColumnOrder| ==>
                        r.value.rows[i][j] == Field(alerts[i], parse, ColumnOrder[j])
  {
    if alerts == [] then Success(Table([], []))
    else match FirstMalformed(alerts)
      case Some(i) => Failure(ShapeError(i))
      case None =>
        var rows := seq(|alerts|, i requires 0 <= i < |alerts| => BuildRow(alerts[i], parse));
        var cols := PresentColumns(ColumnOrder, rows);
        AllColumnsPresent(ColumnOrder, rows);
        FrameHoldsFields(alerts, parse, rows);
        Success(Frame(cols, rows))
  }

  /** A list of alerts of the expected shape gives an empty table exactly when it is empty. */
  lemma ProcessedTableIsEmptyOnlyWithoutAlerts(alerts: seq<Object>, parse: Parser)
    requires ProcessAlerts(alerts, parse).Success?
    ensures IsEmpty(ProcessAlerts(alerts, parse).value) <==> alerts == []
  {
  }
}
