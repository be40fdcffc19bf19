/** The settings helpers of `src/api/settings.js` over the `client_settings`
    table, held as a map from client id to row. */
module SettingsApi {
  import opened Base

  /** A `client_settings` row; `None` is a SQL `NULL`. */
  datatype Row = Row(
    clientId: string,
    abandonmentTimeoutMinutes: Option<int>,
    attributionWindowDays: Option<int>,
    reportFrequency: Option<string>,
    includeCharts: Option<bool>,
    reportEmail: Option<string>,
    senderEmail: Option<string>,
    senderName: Option<string>,
    replyToEmail: Option<string>)

  /** The row `ensureSettingsRow` creates for a client that has none. */
  function DefaultRow(clientId: string): Row
  {
    Row(clientId, Some(45), Some(7), Some("monthly"), Some(true), Some(""), Some(""), Some(""), Some(""))
  }

  /** The settings as the React side names them. */
  datatype Settings = Settings(
    reportFrequency: string,
    includeCharts: bool,
    reportEmail: string,
    senderEmail: string,
    senderName: string,
    replyToEmail: string)

  /** The object `readSettings` builds from a row. */
  function ToSettings(row: Row): (s: Settings)
    ensures row.reportFrequency.Some? ==> s.reportFrequency == row.reportFrequency.value
    ensures row.reportFrequency.None? ==> s.reportFrequency == "monthly"
    ensures row.includeCharts.Some? ==> s.includeCharts == row.includeCharts.value
    ensures row.includeCharts.None? ==> s.includeCharts
    ensures row.reportEmail.Some? ==> s.reportEmail == row.reportEmail.value
    ensures row.reportEmail.None? ==> s.reportEmail == ""
    ensures row.senderEmail.Some? ==> s.senderEmail == row.senderEmail.value
    ensures row.senderEmail.None? ==> s.senderEmail == ""
    ensures row.senderName.Some? ==> s.senderName == row.senderName.value
    ensures row.senderName.None? ==> s.senderName == ""
    ensures row.replyToEmail.Some? ==> s.replyToEmail == row.replyToEmail.value
    ensures row.replyToEmail.None? ==> s.replyToEmail == ""
  {
    Settings(Coalesce(row.reportFrequency, "monthly"), Coalesce(row.includeCharts, true),
             Coalesce(row.reportEmail, ""), Coalesce(row.senderEmail, ""),
             Coalesce(row.senderName, ""), Coalesce(row.replyToEmail, ""))
  }

  /** The settings of a fresh client. */
  const DefaultSettings := Settings("monthly", true, "", "", "", "")

  /** Reading a default row gives the default settings. */
  lemma DefaultRowReadsAsDefaults(clientId: string)
    ensures ToSettings(DefaultRow(clientId)) == DefaultSettings
  {
  }

  /** One field of an `updateSettings` patch: left `undefined`, or given (possibly as `null`). */
  datatype Field<T> = Undefined | Given(value: Option<T>)

  datatype Patch = Patch(
    reportFrequency: Field<string>,
    includeCharts: Field<bool>,
    reportEmail: Field<string>,
    senderEmail: Field<string>,
    senderName: Field<string>,
    replyToEmail: Field<string>)

  /** The six columns a patch may set. */
  datatype Column = ReportFrequency | IncludeCharts | ReportEmail | SenderEmail | SenderName | ReplyToEmail

  /** The column's name in the table. */
  function ColumnName(c: Column): string
  {
    match c
    case ReportFrequency => "report_frequency"
    case IncludeCharts => "include_charts"
    case ReportEmail => "report_email"
    case SenderEmail => "sender_email"
    case SenderName => "sender_name"
    case ReplyToEmail => "reply_to_email"
  }

  /** A column value in the update sent to the table. */
  datatype ColumnValue = Text(text: Option<string>) | Flag(flag: Option<bool>)

  /** Whether the patch gives the column's field, i.e. the field is not `undefined`. */
  predicate IsGiven(patch: Patch, c: Column)
  {
    match c
    case ReportFrequency => patch.reportFrequency.Given?
    case IncludeCharts => patch.includeCharts.Given?
    case ReportEmail => patch.reportEmail.Given?
    case SenderEmail => patch.senderEmail.Given?
    case SenderName => patch.senderName.Given?
    case ReplyToEmail => patch.replyToEmail.Given?
  }

  /** The value the patch gives the column. */
  function GivenValue(patch: Patch, c: Column): ColumnValue
    requires IsGiven(patch, c)
  {
    match c
    case ReportFrequency => Text(patch.reportFrequency.value)
    case IncludeCharts => Flag(patch.includeCharts.value)
    case ReportEmail => Text(patch.reportEmail.value)
    case SenderEmail => Text(patch.senderEmail.value)
    case SenderName => Text(patch.senderName.value)
    case ReplyToEmail => Text(patch.replyToEmail.value)
  }

  const AllColumns: set<Column> :=
    {ReportFrequency, IncludeCharts, ReportEmail, SenderEmail, SenderName, ReplyToEmail}

  lemma AllColumnsListed()
    ensures forall c: Column :: c in AllColumns
  {
    forall c: Column ensures c in AllColumns {
      match c
      case ReportFrequency =>
      case IncludeCharts =>
      case ReportEmail =>
      case SenderEmail =>
      case SenderName =>
      case ReplyToEmail =>
    }
  }

  /** The update `updateSettings` sends: one column for each patch field that
      is not `undefined`, holding that field's value (`null` included). */
  function MapPatch(patch: Patch): (m: map<Column, ColumnValue>)
    ensures forall c :: c in m <==> IsGiven(patch, c)
  {
    var m := map c | c in AllColumns && IsGiven(patch, c) :: GivenValue(patch, c);
    AllColumnsListed();
    m
  }

  /** The value the row holds in a column. */
  function Cell(row: Row, c: Column): ColumnValue
  {
    match c
    case ReportFrequency => Text(row.reportFrequency)
    case IncludeCharts => Flag(row.includeCharts)
    case ReportEmail => Text(row.reportEmail)
    case SenderEmail => Text(row.senderEmail)
    case SenderName => Text(row.senderName)
    case ReplyToEmail => Text(row.replyToEmail)
  }

  /** Whether a value has the column's type: a flag for `include_charts`, text otherwise. */
  predicate Fits(c: Column, v: ColumnValue)
  {
    v.Flag? <==> c == IncludeCharts
  }

  function UpdatedText(previous: Option<string>, c: Column, m: map<Column, ColumnValue>): Option<string>
  {
    if c in m && m[c].Text? then m[c].text else previous
  }

  /** The row after the table applies an update: the columns it names take
      their new values, all others keep theirs. */
  function ApplyUpdate(row: Row, m: map<Column, ColumnValue>): (r: Row)
    ensures r.clientId == row.clientId
    ensures r.abandonmentTimeoutMinutes == row.abandonmentTimeoutMinutes
    ensures r.attributionWindowDays == row.attributionWindowDays
    ensures forall c :: c in m && Fits(c, m[c]) ==> Cell(r, c) == m[c]
    ensures forall c :: c !in m ==> Cell(r, c) == Cell(row, c)
  {
    row.(reportFrequency := UpdatedText(row.reportFrequency, ReportFrequency, m),
         includeCharts := if IncludeCharts in m && m[IncludeCharts].Flag? then m[IncludeCharts].flag else row.includeCharts,
         reportEmail := UpdatedText(row.reportEmail, ReportEmail, m),
         senderEmail := UpdatedText(row.senderEmail, SenderEmail, m),
         senderName := UpdatedText(row.senderName, SenderName, m),
         replyToEmail := UpdatedText(row.replyToEmail, ReplyToEmail, m))
  }

  /** Applying a patch changes exactly the columns it gives, to the values it
      gives; the client id and the two timing columns are never touched. */
  lemma PatchChangesOnlyGivenColumns(row: Row, patch: Patch)
    ensures var r := ApplyUpdate(row, MapPatch(patch));
            && r.clientId == row.clientId
            && r.abandonmentTimeoutMinutes == row.abandonmentTimeoutMinutes
            && r.attributionWindowDays == row.attributionWindowDays
            && r.reportFrequency == (if patch.reportFrequency.Given? then patch.reportFrequency.value else row.reportFrequency)
            && r.includeCharts == (if patch.includeCharts.Given? then patch.includeCharts.value else row.includeCharts)
            && r.reportEmail == (if patch.reportEmail.Given? then patch.reportEmail.value else row.reportEmail)
            && r.senderEmail == (if patch.senderEmail.Given? then patch.senderEmail.value else row.senderEmail)
            && r.senderName == (if patch.senderName.Given? then patch.senderName.value else row.senderName)
            && r.replyToEmail == (if patch.replyToEmail.Given? then patch.replyToEmail.value else row.replyToEmail)
  {
  }

  /** The patch that gives every field its value in `s`, as the settings page sends it. */
  function FullPatch(s: Settings): Patch
  {
    Patch(Given(Some(s.reportFrequency)), Given(Some(s.includeCharts)), Given(Some(s.reportEmail)),
          Given(Some(s.senderEmail)), Given(Some(s.senderName)), Given(Some(s.replyToEmail)))
  }

  /** Saving all six fields and reading them back gives what was saved,
      whatever the row held before. */
  lemma SavedSettingsReadBack(row: Row, s: Settings)
    ensures ToSettings(ApplyUpdate(row, MapPatch(FullPatch(s)))) == s
  {
    PatchChangesOnlyGivenColumns(row, FullPatch(s));
  }

  /** `getMyClientId()`: with no signed-in user it fails with "Not logged in"
      before any query; otherwise the answer of the `users` lookup (its
      client id, or the error it raised) is the result. */
  function GetMyClientId(user: Option<string>, lookup: Result<string, string>): (r: Result<string, string>)
    ensures user.None? ==> r == Err("Not logged in")
    ensures user.Some? ==> r == lookup
  {
    if user.None? then Err("Not logged in") else lookup
  }

  /** The `client_settings` table. */
  class SettingsTable {
    var rows: map<string, Row>

    constructor(rows: map<string, Row>)
      ensures this.rows == rows
    {
      this.rows := rows;
    }

    /** `ensureSettingsRow(clientId)`; `selectError` and `insertError` are the
        errors the table's select and insert answer with, if any. */
    method EnsureSettingsRow(clientId: string, selectError: Option<string>, insertError: Option<string>)
      returns (r: Result<Row, string>)
      modifies this
      ensures selectError.Some? ==> r == Err(selectError.value) && rows == old(rows)
      ensures selectError.None? && clientId in old(rows) ==> r == Ok(old(rows)[clientId]) && rows == old(rows)
      ensures selectError.None? && clientId !in old(rows) && insertError.Some? ==>
        r == Err(insertError.value) && rows == old(rows)
      ensures selectError.None? && clientId !in old(rows) && insertError.None? ==>
        r == Ok(DefaultRow(clientId)) && rows == old(rows)[clientId := DefaultRow(clientId)]
    {
      if selectError.Some? {
        return Err(selectError.value);
      }
      if clientId !in rows {
        if insertError.Some? {
          return Err(insertError.value);
        }
        rows := rows[clientId := DefaultRow(clientId)];
        return Ok(DefaultRow(clientId));
      }
      r := Ok(rows[clientId]);
    }

    /** `readSettings()`. */
    method ReadSettings(user: Option<string>, lookup: Result<string, string>,
                        selectError: Option<string>, insertError: Option<string>)
      returns (r: Result<Settings, string>)
      modifies this
      ensures user.None? ==> r == Err("Not logged in") && rows == old(rows)
      ensures user.Some? && lookup.Err? ==> r == Err(lookup.error)
      ensures user.Some? && lookup.Ok? && selectError.Some? ==> r == Err(selectError.value)
      ensures user.Some? && lookup.Ok? && selectError.None? && lookup.value in old(rows) ==>
        r == Ok(ToSettings(old(rows)[lookup.value])) && rows == old(rows)
      ensures user.Some? && lookup.Ok? && selectError.None? && lookup.value !in old(rows) && insertError.None? ==>
        r == Ok(DefaultSettings) && rows == old(rows)[lookup.value := DefaultRow(lookup.value)]
      ensures user.Some? && lookup.Ok? && selectError.None? && lookup.value !in old(rows) && insertError.Some? ==>
        r == Err(insertError.value)
      ensures r.Err? ==> rows == old(rows)
    {
      var id := GetMyClientId(user, lookup);
      if id.Err? {
        return Err(id.error);
      }
      var row := EnsureSettingsRow(id.value, selectError, insertError);
      if row.Err? {
        return Err(row.error);
      }
      DefaultRowReadsAsDefaults(id.value);
      r := Ok(ToSettings(row.value));
    }

    /** `updateSettings(patch)`; `updateError` is the error the table's update
        answers with, if any. An update that matches no row changes nothing. */
    method UpdateSettings(user: Option<string>, lookup: Result<string, string>,
                          patch: Patch, updateError: Option<string>)
      returns (r: Outcome)
      modifies this
      ensures user.None? ==> r == Failure("Not logged in")
      ensures user.Some? && lookup.Err? ==> r == Failure(lookup.error)
      ensures user.Some? && lookup.Ok? && updateError.Some? ==> r == Failure(updateError.value)
      ensures r.Failure? ==> rows == old(rows)
      ensures r.Success? <==> user.Some? && lookup.Ok? && updateError.None?
      ensures r.Success? ==>
        var id := lookup.value;
           rows == if id in old(rows) then old(rows)[id := ApplyUpdate(old(rows)[id], MapPatch(patch))]
                   else old(rows)
    {
      var id := GetMyClientId(user, lookup);
      if id.Err? {
        return Failure(id.error);
      }
      if updateError.Some? {
        return Failure(updateError.value);
      }
      if id.value in rows {
        rows := rows[id.value := ApplyUpdate(rows[id.value], MapPatch(patch))];
      }
      r := Success;
    }
  }

  /** A successful full update followed by a read of the same client returns
      what was written, and every other client's row is as before. */
  method UpdateThenRead(table: SettingsTable, user: string, id: string, s: Settings)
    returns (read: Result<Settings, string>)
    requires id in table.rows
    modifies table
    ensures read == Ok(s)
    ensures forall other :: other in old(table.rows) && other != id ==>
      other in table.rows && table.rows[other] == old(table.rows)[other]
  {
    var outcome := table.UpdateSettings(Some(user), Ok(id), FullPatch(s), None);
    SavedSettingsReadBack(old(table.rows)[id], s);
    read := table.ReadSettings(Some(user), Ok(id), None, None);
  }
}
