/** classify and validateReport of scripts/gate1-vercel-build-diagnostic.js: the reports the reader can write for
    any file, and the independent validator that has to accept exactly those. */
module Diagnosis {
  import opened Wrappers

  datatype Json = Null | Bool(truth: bool) | Int(number: int) | Fraction | Text(text: string) | List(items: seq<Json>)
    | Object(fields: map<string, Json>)

  datatype Outcome = ReportedError | MetadataAbsent | MetadataUnreadable | MetadataRejected | ProvenanceMismatch
    | NoErrorRecord | UnrecognizedError | ContainerFailure

  /** The code of an error, with what a failed spawn adds to it; and its system call, with the tool it names. */
  datatype Code = Code(errorCode: string, codeExitStatus: Option<int>, codeSignal: Option<string>)

  datatype Call = Call(operation: string, operationTool: string)

  /** What a report says of the error, and of where the file comes from. */
  datatype Finding = Finding(errorName: string, code: Code, errorExitCode: Option<int>, tool: string, call: Call)

  datatype Origin = Origin(cliVersionMatches: bool, targetMatches: bool)

  datatype Report = Report(approval: string, outcome: Outcome, origin: Origin, finding: Finding)

  const NOTHING := Finding(MISSING, Code(MISSING, None, None), None, MISSING, Call(MISSING, MISSING))
  const STRANGE := Origin(false, false)
  const EXPECTED := Origin(true, true)

  const NAMES: set<string> := {"Error", "TypeError", "RangeError", "SyntaxError", "ReferenceError", "NowBuildError",
    "BuildError", "SystemError"}
  const CODES: set<string> := {"ENOENT", "EACCES", "EPERM", "EROFS", "ENOSPC", "ENOTFOUND", "EAI_AGAIN", "ENETUNREACH",
    "ECONNREFUSED", "ECONNRESET", "ETIMEDOUT", "ERR_MODULE_NOT_FOUND", "MODULE_NOT_FOUND", "ERR_REQUIRE_ESM",
    "ERR_DLOPEN_FAILED", "NODEJS_DISCONTINUED_VERSION", "INVALID_DEPLOYMENT_ID", "INVALID_CRON_SECRET",
    "DUPLICATE_SERVICE_BUILDER_SRC", "NOW_SANDBOX_WORKER_MAX_LAMBDA_SIZE", "bad_request"}
  const SIGNALS: set<string> := {"SIGKILL", "SIGTERM", "SIGABRT", "SIGSEGV", "SIGBUS", "SIGILL", "SIGFPE", "SIGPIPE"}
  const TOOLS: set<string> := {"git", "node", "npm", "sh", "python", "python3", "tar"}
  const OPERATIONS: set<string> := {"open", "read", "write", "mkdir"}
  const MISSING := "missing"
  const UNRECOGNIZED := "unrecognized"
  const SPAWNED := "BUILD_UTILS_SPAWN"
  const SPAWNED_WITH := "BUILD_UTILS_SPAWN_"
  const SPAWN := "spawn"
  const SPAWN_OF := "spawn "

  // ---- the reader

  function Base(approval: string, outcome: Outcome): Report {
    Report(approval, outcome, STRANGE, NOTHING)
  }

  function Category(error: map<string, Json>, key: string, allowed: set<string>): string {
    if key !in error then MISSING
    else if error[key].Text? && error[key].text in allowed then error[key].text
    else UNRECOGNIZED
  }

  predicate Digit(c: char) { '0' <= c <= '9' }

  function DigitValue(c: char): int { c as int - '0' as int }

  /** A status of one to three digits, no zero in front, at most 255. */
  function ExitStatus(s: string): Option<int> {
    if |s| == 0 || |s| > 3 || s[0] == '0' || exists i :: 0 <= i < |s| && !Digit(s[i]) then None
    else
      var value := if |s| == 1 then DigitValue(s[0])
                   else if |s| == 2 then 10 * DigitValue(s[0]) + DigitValue(s[1])
                   else 100 * DigitValue(s[0]) + 10 * DigitValue(s[1]) + DigitValue(s[2]);
      if value <= 255 then Some(value) else None
  }

  /** What follows the prefix of a text, if it is there. */
  function After(prefix: string, text: string): Option<string> {
    if prefix <= text then Some(text[|prefix|..]) else None
  }

  /** A spawn failure names a signal or an exit status. */
  function SpawnSignal(code: string): Option<string> {
    var rest := After(SPAWNED_WITH, code);
    if rest.Some? && rest.value in SIGNALS then rest else None
  }

  function SpawnStatus(code: string): Option<int> {
    var rest := After(SPAWNED_WITH, code);
    if rest.Some? && rest.value !in SIGNALS then ExitStatus(rest.value) else None
  }

  predicate Known(category: string) { category != MISSING && category != UNRECOGNIZED }

  predicate Meaningful(f: Finding) {
    Known(f.code.errorCode) || f.errorExitCode.Some? || Known(f.tool) || Known(f.call.operation)
  }

  function CodeIn(error: map<string, Json>): Code {
    var plain := Code(Category(error, "code", CODES), None, None);
    if "code" !in error || !error["code"].Text? then plain
    else
      var code := error["code"].text;
      if SpawnSignal(code).Some? then Code(SPAWNED, None, SpawnSignal(code))
      else if SpawnStatus(code).Some? then Code(SPAWNED, SpawnStatus(code), None)
      else plain
  }

  function ExitCodeIn(error: map<string, Json>): Option<int> {
    if "exitCode" in error && error["exitCode"].Int? && 0 <= error["exitCode"].number <= 255
    then Some(error["exitCode"].number) else None
  }

  function CallIn(error: map<string, Json>): Call {
    var plain := Call(Category(error, "syscall", OPERATIONS), MISSING);
    if "syscall" !in error || !error["syscall"].Text? then plain
    else
      var tool := After(SPAWN_OF, error["syscall"].text);
      if tool.Some? && tool.value in TOOLS then Call(SPAWN, tool.value) else plain
  }

  function FindingIn(error: map<string, Json>): Finding {
    Finding(Category(error, "name", NAMES), CodeIn(error), ExitCodeIn(error), Category(error, "path", TOOLS),
      CallIn(error))
  }

  function ClassifiedError(error: map<string, Json>, approval: string): Report {
    var finding := FindingIn(error);
    Report(approval, if Meaningful(finding) then ReportedError else UnrecognizedError, EXPECTED, finding)
  }

  predicate Matches(fields: map<string, Json>, key: string, text: string) {
    key in fields && fields[key] == Text(text)
  }

  function OriginIn(fields: map<string, Json>): Origin {
    Origin(Matches(fields, "cliVersion", "50.33.1"), Matches(fields, "target", "preview"))
  }

  function Classify(value: Json, approval: string): Report {
    if !value.Object? then Base(approval, MetadataRejected)
    else
      var origin := OriginIn(value.fields);
      if origin != EXPECTED then Report(approval, ProvenanceMismatch, origin, NOTHING)
      else if "error" !in value.fields then Report(approval, NoErrorRecord, EXPECTED, NOTHING)
      else if !value.fields["error"].Object? then Report(approval, MetadataRejected, EXPECTED, NOTHING)
      else ClassifiedError(value.fields["error"].fields, approval)
  }

  /** How reading the one fixed file ends: refused by the contract, a failed call, an unfit file, or its value. */
  datatype Reading = WrongContract | NotFound | NotPermitted | Unfit | Content(value: Json)

  function ReportOf(reading: Reading, approval: string): Report {
    match reading
    case WrongContract => Base(approval, ProvenanceMismatch)
    case NotFound => Base(approval, MetadataAbsent)
    case NotPermitted => Base(approval, MetadataUnreadable)
    case Unfit => Base(approval, MetadataRejected)
    case Content(value) => Classify(value, approval)
  }

  // ---- the validator

  predicate Classified(r: Report) { r.outcome.ReportedError? || r.outcome.UnrecognizedError? }

  predicate CodeListed(c: Code) {
    && c.errorCode in CODES + {SPAWNED, MISSING, UNRECOGNIZED}
    && (c.codeExitStatus.Some? ==> 1 <= c.codeExitStatus.value <= 255)
    && (c.codeSignal.Some? ==> c.codeSignal.value in SIGNALS)
    && (if c.errorCode == SPAWNED then c.codeExitStatus.None? != c.codeSignal.None?
        else c.codeExitStatus.None? && c.codeSignal.None?)
  }

  predicate CallListed(c: Call) {
    && c.operation in OPERATIONS + {SPAWN, MISSING, UNRECOGNIZED} && c.operationTool in TOOLS + {MISSING}
    && (c.operation == SPAWN <==> c.operationTool != MISSING)
  }

  predicate FindingListed(f: Finding) {
    && f.errorName in NAMES + {MISSING, UNRECOGNIZED} && f.tool in TOOLS + {MISSING, UNRECOGNIZED}
    && (f.errorExitCode.Some? ==> 0 <= f.errorExitCode.value <= 255)
    && CodeListed(f.code) && CallListed(f.call)
  }

  predicate ValidReport(r: Report, approval: string) {
    && r.approval == approval && !r.outcome.ContainerFailure? && FindingListed(r.finding)
    && (Classified(r) ==> r.origin == EXPECTED && Meaningful(r.finding) == r.outcome.ReportedError?)
    && (r.outcome.MetadataAbsent? || r.outcome.MetadataUnreadable? ==> r.origin == STRANGE)
    && (r.outcome.MetadataRejected? ==> r.origin.cliVersionMatches == r.origin.targetMatches)
    && (r.outcome.ProvenanceMismatch? ==> r.origin != EXPECTED)
    && (r.outcome.NoErrorRecord? ==> r.origin == EXPECTED)
    && (!Classified(r) ==> r.finding == NOTHING)
  }

  // ---- the vocabularies do not overlap

  lemma CodesApart(code: string)
    requires code in CODES
    ensures code != SPAWNED && Known(code) && After(SPAWNED_WITH, code).None?
  {
    assert code[0] != 'B';
  }

  lemma ToolsApart(tool: string)
    requires tool in TOOLS
    ensures Known(tool) && SPAWN_OF + tool !in OPERATIONS && After(SPAWN_OF, SPAWN_OF + tool) == Some(tool)
  {
    assert |SPAWN_OF + tool| > 5;
  }

  lemma OperationsApart(operation: string)
    requires operation in OPERATIONS
    ensures Known(operation) && operation != SPAWN && After(SPAWN_OF, operation).None?
  {
    assert |operation| <= 5 && operation[0] != 's';
  }

  // ---- every report is valid

  lemma CategoryListed(error: map<string, Json>, key: string, allowed: set<string>)
    ensures Category(error, key, allowed) in allowed + {MISSING, UNRECOGNIZED}
  {
  }

  lemma CodeIsListed(error: map<string, Json>)
    ensures CodeListed(CodeIn(error))
  {
    CategoryListed(error, "code", CODES);
    var category := Category(error, "code", CODES);
    if category in CODES {
      CodesApart(category);
    }
  }

  lemma CallIsListed(error: map<string, Json>)
    ensures CallListed(CallIn(error))
  {
    CategoryListed(error, "syscall", OPERATIONS);
    var category, call := Category(error, "syscall", OPERATIONS), CallIn(error);
    if category in OPERATIONS {
      OperationsApart(category);
    }
    if call.operationTool in TOOLS {
      ToolsApart(call.operationTool);
    }
  }

  lemma ErrorIsValid(error: map<string, Json>, approval: string)
    ensures ValidReport(ClassifiedError(error, approval), approval)
  {
    CategoryListed(error, "name", NAMES);
    CategoryListed(error, "path", TOOLS);
    CodeIsListed(error);
    CallIsListed(error);
  }

  /** Whatever the file holds, the validator accepts the reader's report on it. */
  lemma ReportIsValid(reading: Reading, approval: string)
    ensures ValidReport(ReportOf(reading, approval), approval)
  {
    if reading.Content? && reading.value.Object? {
      var fields := reading.value.fields;
      if "error" in fields && fields["error"].Object? {
        ErrorIsValid(fields["error"].fields, approval);
      }
    }
  }

  // ---- every valid report is one the reader writes

  function Numeral(n: int): string
    requires 1 <= n <= 255
  {
    var digit := (d: int) requires 0 <= d < 10 => ('0' as int + d) as char;
    if n < 10 then [digit(n)]
    else if n < 100 then [digit(n / 10), digit(n % 10)]
    else [digit(n / 100), digit(n / 10 % 10), digit(n % 10)]
  }

  lemma NumeralStatus(n: int)
    requires 1 <= n <= 255
    ensures ExitStatus(Numeral(n)) == Some(n) && Numeral(n) !in SIGNALS
  {
    NumeralDigits(n);
    if Numeral(n) in SIGNALS {
      SignalsLong(Numeral(n));
    }
  }

  lemma NumeralDigits(n: int)
    requires 1 <= n <= 255
    ensures |Numeral(n)| <= 3 && forall i :: 0 <= i < |Numeral(n)| ==> Digit(Numeral(n)[i])
    ensures ExitStatus(Numeral(n)) == Some(n)
  {
    hide SIGNALS;
  }

  lemma SignalsLong(s: string)
    requires s in SIGNALS
    ensures |s| > 3
  {
  }

  /** A value that falls in a category. */
  function Fitting(category: string): Json {
    if category == UNRECOGNIZED then Null else Text(category)
  }

  /** The code and the system call that a report's categories and statuses come from. */
  function CodeOf(c: Code): Json
    requires c.codeExitStatus.Some? ==> 1 <= c.codeExitStatus.value <= 255
  {
    if c.codeSignal.Some? then Text(SPAWNED_WITH + c.codeSignal.value)
    else if c.codeExitStatus.Some? then Text(SPAWNED_WITH + Numeral(c.codeExitStatus.value))
    else Fitting(c.errorCode)
  }

  function CallOf(c: Call): Json {
    if c.operation == SPAWN then Text(SPAWN_OF + c.operationTool) else Fitting(c.operation)
  }

  /** The record has this value under the key, unless the category is that it is missing. */
  predicate Holds(error: map<string, Json>, key: string, value: Json, category: string) {
    if category == MISSING then key !in error else key in error && error[key] == value
  }

  /** An error record whose classification is the report's. */
  ghost predicate Explains(error: map<string, Json>, f: Finding)
    requires FindingListed(f)
  {
    && Holds(error, "name", Fitting(f.errorName), f.errorName) && Holds(error, "code", CodeOf(f.code), f.code.errorCode)
    && Holds(error, "path", Fitting(f.tool), f.tool) && Holds(error, "syscall", CallOf(f.call), f.call.operation)
    && (if f.errorExitCode.None? then "exitCode" !in error
        else "exitCode" in error && error["exitCode"] == Int(f.errorExitCode.value))
  }

  function With(fields: map<string, Json>, key: string, value: Json, present: bool): map<string, Json> {
    if present then fields[key := value] else fields
  }

  lemma SomethingExplains(f: Finding) returns (error: map<string, Json>)
    requires FindingListed(f)
    ensures Explains(error, f)
  {
    error := With(map[], "name", Fitting(f.errorName), f.errorName != MISSING);
    error := With(error, "code", CodeOf(f.code), f.code.errorCode != MISSING);
    error := With(error, "path", Fitting(f.tool), f.tool != MISSING);
    error := With(error, "syscall", CallOf(f.call), f.call.operation != MISSING);
    if f.errorExitCode.Some? {
      error := error["exitCode" := Int(f.errorExitCode.value)];
    }
  }

  lemma CategoryRecovered(error: map<string, Json>, key: string, allowed: set<string>, category: string)
    requires Holds(error, key, Fitting(category), category) && category in allowed + {MISSING, UNRECOGNIZED}
    ensures Category(error, key, allowed) == category
  {
  }

  lemma CodeRecovered(error: map<string, Json>, c: Code)
    requires CodeListed(c) && Holds(error, "code", CodeOf(c), c.errorCode)
    ensures CodeIn(error) == c
  {
    if c.errorCode == SPAWNED {
      var rest := if c.codeSignal.Some? then c.codeSignal.value else Numeral(c.codeExitStatus.value);
      assert error["code"] == Text(SPAWNED_WITH + rest);
      assert After(SPAWNED_WITH, SPAWNED_WITH + rest) == Some(rest);
      if c.codeExitStatus.Some? {
        NumeralStatus(c.codeExitStatus.value);
      }
    } else {
      CategoryRecovered(error, "code", CODES, c.errorCode);
      if c.errorCode in CODES {
        CodesApart(c.errorCode);
      }
    }
  }

  lemma CallRecovered(error: map<string, Json>, c: Call)
    requires CallListed(c) && Holds(error, "syscall", CallOf(c), c.operation)
    ensures CallIn(error) == c
  {
    if c.operation == SPAWN {
      ToolsApart(c.operationTool);
    } else {
      CategoryRecovered(error, "syscall", OPERATIONS, c.operation);
      if c.operation in OPERATIONS {
        OperationsApart(c.operation);
      }
    }
  }

  lemma FindingRecovered(error: map<string, Json>, f: Finding)
    requires FindingListed(f) && Explains(error, f)
    ensures FindingIn(error) == f
  {
    CategoryRecovered(error, "name", NAMES, f.errorName);
    CodeRecovered(error, f.code);
    CategoryRecovered(error, "path", TOOLS, f.tool);
    CallRecovered(error, f.call);
  }

  function FieldsOf(o: Origin): map<string, Json> {
    With(With(map[], "cliVersion", Text("50.33.1"), o.cliVersionMatches), "target", Text("preview"), o.targetMatches)
  }

  lemma OriginRecovered(o: Origin)
    ensures "error" !in FieldsOf(o) && OriginIn(FieldsOf(o)) == o
  {
  }

  lemma PlainRead(o: Origin, approval: string)
    ensures Classify(Object(FieldsOf(o)), approval) ==
      if o == EXPECTED then Report(approval, NoErrorRecord, o, NOTHING)
        else Report(approval, ProvenanceMismatch, o, NOTHING)
  {
    OriginRecovered(o);
  }

  lemma ErrorRead(error: Json, approval: string)
    ensures Classify(Object(FieldsOf(EXPECTED)["error" := error]), approval) ==
      if error.Object? then ClassifiedError(error.fields, approval)
      else Report(approval, MetadataRejected, EXPECTED, NOTHING)
  {
    hide ClassifiedError;
    var fields := FieldsOf(EXPECTED)["error" := error];
    OriginRecovered(EXPECTED);
    assert OriginIn(fields) == EXPECTED;
  }

  lemma UnclassifiedIsReport(r: Report, approval: string) returns (reading: Reading)
    requires ValidReport(r, approval) && !Classified(r)
    ensures ReportOf(reading, approval) == r
  {
    hide FieldsOf, Classify, FindingListed;
    PlainRead(r.origin, approval);
    ErrorRead(Null, approval);
    match r.outcome
    case MetadataAbsent => reading := NotFound;
    case MetadataUnreadable => reading := NotPermitted;
    case MetadataRejected =>
      reading := if r.origin == EXPECTED then Content(Object(FieldsOf(EXPECTED)["error" := Null])) else Unfit;
    case _ => reading := Content(Object(FieldsOf(r.origin)));
  }

  lemma ClassifiedIsReport(r: Report, approval: string) returns (reading: Reading)
    requires ValidReport(r, approval) && Classified(r)
    ensures ReportOf(reading, approval) == r
  {
    hide FieldsOf, Classify, FindingListed, FindingIn, Explains;
    var error := SomethingExplains(r.finding);
    FindingRecovered(error, r.finding);
    ErrorRead(Object(error), approval);
    reading := Content(Object(FieldsOf(EXPECTED)["error" := Object(error)]));
  }

  /** Every report the validator accepts is the reader's report on some file. */
  lemma ValidIsReport(r: Report, approval: string) returns (reading: Reading)
    requires ValidReport(r, approval)
    ensures ReportOf(reading, approval) == r
  {
    if Classified(r) {
      reading := ClassifiedIsReport(r, approval);
    } else {
      reading := UnclassifiedIsReport(r, approval);
    }
  }

  /** The validator accepts exactly the reports the reader can write under the same approval. */
  lemma ExactlyTheReports(r: Report, approval: string)
    ensures ValidReport(r, approval) <==> exists reading :: ReportOf(reading, approval) == r
  {
    if ValidReport(r, approval) {
      var reading := ValidIsReport(r, approval);
      assert ReportOf(reading, approval) == r;
    } else {
      forall reading
        ensures ReportOf(reading, approval) != r
      {
        ReportIsValid(reading, approval);
      }
    }
  }
}
