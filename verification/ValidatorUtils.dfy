/**
 * utils/ValidatorUtils.kt: the string validators, the three property-name
 * tables (prompt, error, validator), the string-to-value coercion and the
 * read-validate-retry loop that acquires one property value from the console.
 *
 * `null` (a missing line, a missing old value) is `None`. Parsing and printing
 * a `LocalDateTime` are foreign calls and are passed in as a `DateTimeText`.
 */
module ValidatorUtils {
  import opened Wrappers
  import opened KotlinText
  import opened Models

  /** `LocalDateTime.parse` (null on a `DateTimeParseException`) and `LocalDateTime.toString`. */
  datatype DateTimeText = DateTimeText(parse: string -> Option<Timestamp>, format: Timestamp -> string)

  /** The exceptions the registry, the coercion and the loop can throw. */
  datatype KotlinException =
    | IllegalArgument(message: string)
    | NullPointer
    | NumberFormat
    | IndexOutOfBounds
    | DateTimeParse

  // ---------------------------------------------------------------- validators

  /** `stringIsValid`: not null and not blank. */
  predicate StringIsValid(s: Option<string>)
    ensures StringIsValid(s) <==> s.Some? && exists i | 0 <= i < |s.value| :: !IsWhitespace(s.value[i])
  {
    !IsNullOrBlank(s)
  }

  /** `intIsValid`: not blank and `toIntOrNull` succeeds; the blank check adds nothing. */
  predicate IntIsValid(s: Option<string>)
    ensures IntIsValid(s) <==> s.Some? && ToIntOrNull(s.value).Some?
  {
    StringIsValid(s) && ToIntOrNull(s.value).Some?
  }

  /** `songPriorityIsValid`: an Int in 1..5. */
  predicate SongPriorityIsValid(s: Option<string>)
    ensures SongPriorityIsValid(s) <==> s.Some? && ToIntOrNull(s.value).Some? && 1 <= ToIntOrNull(s.value).value <= 5
  {
    IntIsValid(s) && 1 <= ToIntOrNull(s.value).value <= 5
  }

  /**
   * `yesNoIsValid`: not blank, and the first character lower-cased is 'y' or
   * 'n'. Only that character matters; the blank check adds nothing.
   */
  predicate YesNoIsValid(s: Option<string>)
    ensures YesNoIsValid(s) <==> s.Some? && |s.value| > 0 && LowerAscii(s.value[0]) in {'y', 'n'}
  {
    StringIsValid(s) && LowerAscii(s.value[0]) in {'y', 'n'}
  }

  /** `localDateTimeIsValid`: not blank and `LocalDateTime.parse` succeeds. */
  predicate LocalDateTimeIsValid(s: Option<string>, dt: DateTimeText)
    ensures LocalDateTimeIsValid(s, dt) ==> s.Some? && dt.parse(s.value).Some?
  {
    StringIsValid(s) && dt.parse(s.value).Some?
  }

  /** `staleDaysIsValid`: an Int that is at least 0. */
  predicate StaleDaysIsValid(s: Option<string>)
    ensures StaleDaysIsValid(s) <==> s.Some? && ToIntOrNull(s.value).Some? && ToIntOrNull(s.value).value >= 0
  {
    IntIsValid(s) && ToIntOrNull(s.value).value >= 0
  }

  /** The cases the tests fix for each validator. */
  lemma ValidatorExamples(dt: DateTimeText)
    ensures StringIsValid(Some("valid string")) && !StringIsValid(None)
    ensures !StringIsValid(Some("")) && !StringIsValid(Some("   "))
    ensures IntIsValid(Some("1")) && !IntIsValid(None) && !IntIsValid(Some(""))
    ensures !IntIsValid(Some("a")) && !IntIsValid(Some("1.1"))
    ensures SongPriorityIsValid(Some("1")) && SongPriorityIsValid(Some("5"))
    ensures !SongPriorityIsValid(Some("0")) && !SongPriorityIsValid(Some("6")) && !SongPriorityIsValid(None)
    ensures YesNoIsValid(Some("y")) && YesNoIsValid(Some("Y")) && YesNoIsValid(Some("n")) && YesNoIsValid(Some("N"))
    ensures !YesNoIsValid(None) && !YesNoIsValid(Some("")) && !YesNoIsValid(Some("invalid"))
    ensures StaleDaysIsValid(Some("0")) && StaleDaysIsValid(Some("1"))
    ensures !StaleDaysIsValid(Some("-1")) && !StaleDaysIsValid(None)
    ensures !LocalDateTimeIsValid(None, dt) && !LocalDateTimeIsValid(Some(""), dt)
  {
    assert !IsWhitespace("valid string"[0]);
    assert ToIntOrNull("5") == Some(5) && ToIntOrNull("6") == Some(6);
    assert ToIntOrNull("-1") == Some(-1) by { assert "-1"[1..] == "1"; }
    assert AllDigits("1") && !IsDigit("1.1"[1]);
  }

  /** The validators the registry hands out. */
  datatype Validator =
    | NonBlank          // ::stringIsValid
    | SongPriority      // ::songPriorityIsValid
    | YesNo             // ::yesNoIsValid
    | LocalDateTime     // ::localDateTimeIsValid
    | StaleDays         // ::staleDaysIsValid
    | Custom(accepts: Option<string> -> bool)  // a caller-supplied lambda

  /** Applying a validator to one line of input. */
  function Accepts(v: Validator, input: Option<string>, dt: DateTimeText): bool {
    match v
    case NonBlank => StringIsValid(input)
    case SongPriority => SongPriorityIsValid(input)
    case YesNo => YesNoIsValid(input)
    case LocalDateTime => LocalDateTimeIsValid(input, dt)
    case StaleDays => StaleDaysIsValid(input)
    case Custom(f) => f(input)
  }

  // ---------------------------------------------------------------- registry

  /** The six names that stand for a Song field. */
  const RecordFieldNames: set<string> :=
    {"songTitle", "songPriority", "songCategory", "isSongArchived", "updatedAt", "createdAt"}

  /** The names each table knows; the three sets differ. */
  const PromptNames: set<string> := RecordFieldNames + {"staleDays", "songIndex"}
  const ErrorNames: set<string> := RecordFieldNames + {"staleDays", "songIndex", "yesNo"}
  const ValidatorNames: set<string> := RecordFieldNames + {"staleDays", "yesNo"}

  function UnknownProperty(propertyName: string): KotlinException {
    IllegalArgument("Invalid property name: " + propertyName)
  }

  /** `def`: the old value in parentheses, or nothing. */
  function Def(prop: Option<string>): (r: string)
    ensures prop.None? ==> r == ""
    ensures prop.Some? ==> r == " (" + prop.value + ")"
  {
    if prop.Some? then " (" + prop.value + ")" else ""
  }

  const SongTitlePrompt := "Enter song title"
  const SongPriorityPrompt := "Enter song priority (1-low, 2, 3, 4, 5-high)"
  const SongCategoryPrompt := "Enter song category"
  const IsSongArchivedPrompt := "Enter song archived status (y/n)"
  const UpdatedAtPrompt := "Enter song updated at (e.g. 2023-03-09T11:30:00)"
  const CreatedAtPrompt := "Enter song created at (e.g. 2023-03-09T11:30:00)"
  const StaleDaysPrompt := "Show songs that haven't been updated in this many days: "
  const SongIndexPrompt := "Enter song index: "

  /**
   * `propertyNameToPrompt`. The old value is passed as the text Kotlin's
   * string template would show for it.
   */
  function PropertyNameToPrompt(propertyName: string, oldPropertyValue: Option<string>): (r: Result<string, KotlinException>)
    ensures r.Success? <==> propertyName in PromptNames
    ensures r.Failure? ==> r.error == UnknownProperty(propertyName)
  {
    var d := Def(oldPropertyValue);
    match propertyName
    case "songTitle" => Success(SongTitlePrompt + d + ": ")
    case "songPriority" => Success(SongPriorityPrompt + d + ": ")
    case "songCategory" => Success(SongCategoryPrompt + d + ": ")
    case "isSongArchived" => Success(IsSongArchivedPrompt + d + ": ")
    case "updatedAt" => Success(UpdatedAtPrompt + d + ": ")
    case "createdAt" => Success(CreatedAtPrompt + d + ": ")
    case "staleDays" => Success(StaleDaysPrompt)
    case "songIndex" => Success(SongIndexPrompt)
    case _ => Failure(UnknownProperty(propertyName))
  }

  /** A prompt built from a stem shows the old value just before its closing ": ". */
  lemma StemPromptShowsOldValue(stem: string, oldText: string)
    ensures var bare := stem + Def(None) + ": ";
      && |bare| >= 2 && bare[|bare| - 2..] == ": "
      && stem + Def(Some(oldText)) + ": " == bare[..|bare| - 2] + " (" + oldText + "): "
  {
    var bare := stem + Def(None) + ": ";
    assert bare[..|bare| - 2] == stem;
  }

  /**
   * For a Song field the bare prompt ends in ": " and an old value appears as
   * " (old)" just before it; the other two prompts never show an old value.
   */
  lemma PromptShowsOldValue(propertyName: string, oldText: string)
    requires propertyName in PromptNames
    ensures var bare := PropertyNameToPrompt(propertyName, None).value;
      && |bare| >= 2 && bare[|bare| - 2..] == ": "
      && PropertyNameToPrompt(propertyName, Some(oldText)).value ==
         if propertyName in RecordFieldNames then bare[..|bare| - 2] + " (" + oldText + "): " else bare
  {
    match propertyName
    case "songTitle" => StemPromptShowsOldValue(SongTitlePrompt, oldText);
    case "songPriority" => StemPromptShowsOldValue(SongPriorityPrompt, oldText);
    case "songCategory" => StemPromptShowsOldValue(SongCategoryPrompt, oldText);
    case "isSongArchived" => StemPromptShowsOldValue(IsSongArchivedPrompt, oldText);
    case "updatedAt" => StemPromptShowsOldValue(UpdatedAtPrompt, oldText);
    case "createdAt" => StemPromptShowsOldValue(CreatedAtPrompt, oldText);
    case "staleDays" =>
      assert StaleDaysPrompt[|StaleDaysPrompt| - 2..] == ": ";
    case "songIndex" =>
      assert SongIndexPrompt[|SongIndexPrompt| - 2..] == ": ";
  }

  const SongTitleError := "Error: song title was invalid. Please enter a string"
  const SongPriorityError := "Error: song priority was invalid. Please enter an integer between 1 and 5"
  const SongCategoryError := "Error: song category was invalid. Please enter a string"
  const IsSongArchivedError := "Error: song archived status was invalid. Please enter either 'y' or 'n'"
  const UpdatedAtError := "Error: song updated at was invalid. Please enter a valid date and time (e.g. 2023-03-09T11:30:00)"
  const CreatedAtError := "Error: song created at was invalid. Please enter a valid date and time (e.g. 2023-03-09T11:30:00)"
  const StaleDaysError := "Error: invalid number of days. Please enter a valid positive integer."
  const SongIndexError := "Error: invalid song index. Please enter a valid positive integer."
  const YesNoError := "Error: invalid input. Please enter either 'y' or 'n'."

  /** `propertyNameToError`. */
  function PropertyNameToError(propertyName: string): (r: Result<string, KotlinException>)
    ensures r.Success? <==> propertyName in ErrorNames
    ensures r.Failure? ==> r.error == UnknownProperty(propertyName)
  {
    match propertyName
    case "songTitle" => Success(SongTitleError)
    case "songPriority" => Success(SongPriorityError)
    case "songCategory" => Success(SongCategoryError)
    case "isSongArchived" => Success(IsSongArchivedError)
    case "updatedAt" => Success(UpdatedAtError)
    case "createdAt" => Success(CreatedAtError)
    case "staleDays" => Success(StaleDaysError)
    case "songIndex" => Success(SongIndexError)
    case "yesNo" => Success(YesNoError)
    case _ => Failure(UnknownProperty(propertyName))
  }

  /** `propertyNameToValidator`. */
  function PropertyNameToValidator(propertyName: string): (r: Result<Validator, KotlinException>)
    ensures r.Success? <==> propertyName in ValidatorNames
    ensures r.Failure? ==> r.error == UnknownProperty(propertyName)
    ensures propertyName in {"songTitle", "songCategory"} ==> r.Success? && r.value.NonBlank?
  {
    match propertyName
    case "songTitle" => Success(NonBlank)
    case "songPriority" => Success(SongPriority)
    case "songCategory" => Success(NonBlank)
    case "isSongArchived" => Success(YesNo)
    case "updatedAt" => Success(LocalDateTime)
    case "createdAt" => Success(LocalDateTime)
    case "staleDays" => Success(StaleDays)
    case "yesNo" => Success(YesNo)
    case _ => Failure(UnknownProperty(propertyName))
  }

  /** The tables disagree on two names: "songIndex" has no validator and "yesNo" no prompt. */
  lemma RegistryKeySetsDiffer()
    ensures "songIndex" in PromptNames && "songIndex" in ErrorNames && "songIndex" !in ValidatorNames
    ensures "yesNo" !in PromptNames && "yesNo" in ErrorNames && "yesNo" in ValidatorNames
    ensures PromptNames < ErrorNames && ValidatorNames < ErrorNames
    ensures PropertyNameToValidator("songIndex").Failure? && PropertyNameToPrompt("yesNo", None).Failure?
  {
  }

  // ---------------------------------------------------------------- coercion

  /** The reified type argument `T` of the generic calls. */
  datatype TypeTag = StringType | IntType | BooleanType | LocalDateTimeType | OtherType

  /** A value of one of the supported types. */
  datatype Value =
    | StringValue(text: string)
    | IntValue(number: int)
    | BooleanValue(flag: bool)
    | LocalDateTimeValue(instant: Timestamp)

  predicate HasType(v: Value, t: TypeTag) {
    match v
    case StringValue(_) => t == StringType
    case IntValue(n) => t == IntType && MinInt <= n <= MaxInt
    case BooleanValue(_) => t == BooleanType
    case LocalDateTimeValue(_) => t == LocalDateTimeType
  }

  /** `toString()` of a value, as `getValidPropertyValue` and `def` use it. */
  function ValueToString(v: Value, dt: DateTimeText): (r: string)
    ensures v.StringValue? ==> r == v.text
    ensures v.IntValue? && MinInt <= v.number <= MaxInt ==> ToIntOrNull(r) == Some(v.number)
    ensures v.BooleanValue? ==> !YesNoIsValid(Some(r))
  {
    match v
    case StringValue(s) => s
    case IntValue(n) =>
      if MinInt <= n <= MaxInt then IntToStringRoundTrip(n); IntToString(n) else IntToString(n)
    case BooleanValue(b) =>
      var text := if b then "true" else "false";
      assert text[0] == (if b then 't' else 'f');
      text
    case LocalDateTimeValue(t) => dt.format(t)
  }

  /**
   * `stringToGeneric`: `as String`, `!!.toInt()`, the first character
   * lower-cased equal to "y", `LocalDateTime.parse`, and an
   * `IllegalArgumentException` for any other type.
   */
  function StringToGeneric(s: Option<string>, t: TypeTag, dt: DateTimeText): (r: Result<Value, KotlinException>)
    ensures r.Success? ==> HasType(r.value, t)
    ensures t == StringType ==> (r.Success? <==> s.Some?)
    ensures t == IntType ==> (r.Success? <==> IntIsValid(s))
    ensures t == IntType && IntIsValid(s) ==> r.value == IntValue(ToIntOrNull(s.value).value)
    ensures t == BooleanType && YesNoIsValid(s) ==> r == Success(BooleanValue(LowerAscii(s.value[0]) == 'y'))
    ensures t == LocalDateTimeType && LocalDateTimeIsValid(s, dt) ==> r == Success(LocalDateTimeValue(dt.parse(s.value).value))
    ensures t == OtherType ==> r.Failure?
  {
    match t
    case StringType => if s.None? then Failure(NullPointer) else Success(StringValue(s.value))
    case IntType =>
      if s.None? then Failure(NullPointer)
      else if ToIntOrNull(s.value).None? then Failure(NumberFormat)
      else Success(IntValue(ToIntOrNull(s.value).value))
    case BooleanType =>
      if s.None? then Failure(NullPointer)
      else if |s.value| == 0 then Failure(IndexOutOfBounds)
      else Success(BooleanValue(LowerAscii(s.value[0]) == 'y'))
    case LocalDateTimeType =>
      if s.None? then Failure(NullPointer)
      else if dt.parse(s.value).None? then Failure(DateTimeParse)
      else Success(LocalDateTimeValue(dt.parse(s.value).value))
    case OtherType => Failure(IllegalArgument("Invalid property type"))
  }

  /** The Kotlin type each registered name is read as. */
  function FieldType(propertyName: string): TypeTag {
    match propertyName
    case "songTitle" => StringType
    case "songCategory" => StringType
    case "songPriority" => IntType
    case "staleDays" => IntType
    case "isSongArchived" => BooleanType
    case "yesNo" => BooleanType
    case "updatedAt" => LocalDateTimeType
    case "createdAt" => LocalDateTimeType
    case _ => OtherType
  }

  /**
   * Validators and coercions are in lockstep: whatever the registered
   * validator accepts, coercing it to the name's type succeeds.
   */
  lemma ValidatorsMatchCoercions(propertyName: string, input: Option<string>, dt: DateTimeText)
    requires propertyName in ValidatorNames
    requires Accepts(PropertyNameToValidator(propertyName).value, input, dt)
    ensures StringToGeneric(input, FieldType(propertyName), dt).Success?
  {
  }

  // ---------------------------------------------------------------- the input loop

  /** `readlnOrNull()` for the k-th read: the given lines, then null forever (end of input). */
  function ReadLine(lines: seq<Option<string>>, k: nat): Option<string> {
    if k < |lines| then lines[k] else None
  }

  /** The first read at or after `from` whose line the validator accepts, if any ever is. */
  function FirstAccepted(v: Validator, lines: seq<Option<string>>, from: nat, dt: DateTimeText): (r: Option<nat>)
    ensures r.Some? ==> from <= r.value && (r.value <= |lines| || r.value == from)
    ensures r.Some? ==> Accepts(v, ReadLine(lines, r.value), dt)
    ensures r.Some? ==> forall j | from <= j < r.value :: !Accepts(v, ReadLine(lines, j), dt)
    ensures r.None? ==> !Accepts(v, None, dt) && forall j | from <= j < |lines| :: !Accepts(v, lines[j], dt)
    decreases |lines| - from
  {
    if from < |lines| then
      if Accepts(v, lines[from], dt) then Some(from) else FirstAccepted(v, lines, from + 1, dt)
    else if Accepts(v, None, dt) then Some(from)
    else None
  }

  /** How one call of `getValidPropertyValue` ends. */
  datatype Acquisition =
    | Acquired(value: Value)
    | Thrown(error: KotlinException)
    | Diverges   // the source loops forever

  /** The outcome, what was printed, and how many lines were read. */
  datatype Session = Session(outcome: Acquisition, printed: seq<string>, linesRead: nat)

  function Outcome(r: Result<Value, KotlinException>): Acquisition {
    match r
    case Success(v) => Acquired(v)
    case Failure(e) => Thrown(e)
  }

  function ValidatorFor(customValidator: Option<Validator>, propertyName: string): Result<Validator, KotlinException> {
    if customValidator.Some? then Success(customValidator.value) else PropertyNameToValidator(propertyName)
  }

  function PromptFor(customPrompt: Option<string>, propertyName: string, oldValue: Option<Value>, dt: DateTimeText): Result<string, KotlinException> {
    if customPrompt.Some? then Success(customPrompt.value)
    else PropertyNameToPrompt(propertyName, if oldValue.Some? then Some(ValueToString(oldValue.value, dt)) else None)
  }

  function ErrorFor(customError: Option<string>, propertyName: string): Result<string, KotlinException> {
    if customError.Some? then Success(customError.value) else PropertyNameToError(propertyName)
  }

  function Repeat(s: string, n: nat): (r: seq<string>)
    ensures |r| == n && forall i | 0 <= i < n :: r[i] == s
  {
    if n == 0 then [] else Repeat(s, n - 1) + [s]
  }

  /**
   * What `getValidPropertyValue` does, as written: the first line is read; a
   * failing line is replaced by the old value's `toString()` when there is an
   * old value (which loops forever if that text fails too), and otherwise the
   * error is printed and another line read.
   */
  function Acquire(propertyName: string, t: TypeTag, oldValue: Option<Value>, customValidator: Option<Validator>,
                   customPrompt: Option<string>, customError: Option<string>,
                   lines: seq<Option<string>>, dt: DateTimeText): Session
  {
    match ValidatorFor(customValidator, propertyName)
    case Failure(e) => Session(Thrown(e), [], 0)
    case Success(v) =>
      match PromptFor(customPrompt, propertyName, oldValue, dt)
      case Failure(e) => Session(Thrown(e), [], 0)
      case Success(prompt) =>
        var first := ReadLine(lines, 0);
        if Accepts(v, first, dt) then Session(Outcome(StringToGeneric(first, t, dt)), [prompt], 1)
        else if oldValue.Some? then
          var fallback := Some(ValueToString(oldValue.value, dt));
          if Accepts(v, fallback, dt) then Session(Outcome(StringToGeneric(fallback, t, dt)), [prompt], 1)
          else Session(Diverges, [prompt], 1)
        else
          match ErrorFor(customError, propertyName)
          case Failure(e) => Session(Thrown(e), [prompt], 1)
          case Success(err) =>
            match FirstAccepted(v, lines, 1, dt)
            case Some(j) => Session(Outcome(StringToGeneric(ReadLine(lines, j), t, dt)), [prompt] + Repeat(err, j), j + 1)
            case None =>
              var readCount := if |lines| == 0 then 1 else |lines|;
              Session(Diverges, [prompt] + Repeat(err, readCount - 1), readCount)
  }

  /**
   * What every run of the loop has in common: a returned value has the
   * requested type, each line read follows exactly one printed prompt or
   * error, and with an old value at most one line is read.
   */
  lemma AcquireShape(propertyName: string, t: TypeTag, oldValue: Option<Value>, customValidator: Option<Validator>,
                     customPrompt: Option<string>, customError: Option<string>,
                     lines: seq<Option<string>>, dt: DateTimeText)
    ensures var r := Acquire(propertyName, t, oldValue, customValidator, customPrompt, customError, lines, dt);
      && (r.outcome.Acquired? ==> HasType(r.outcome.value, t) && r.linesRead >= 1)
      && r.linesRead == |r.printed|
      && (oldValue.Some? ==> r.linesRead <= 1)
  {
  }

  /**
   * `getValidPropertyValue`. Where the source would loop forever the method
   * stops and reports `Diverges`: when the old value's text fails the
   * validator, or when input has ended and the validator rejects null.
   */
  method GetValidPropertyValue(propertyName: string, t: TypeTag, oldPropertyValue: Option<Value>,
                               customValidator: Option<Validator>, customPrompt: Option<string>,
                               customError: Option<string>, lines: seq<Option<string>>, dt: DateTimeText)
    returns (outcome: Acquisition, printed: seq<string>, linesRead: nat)
    requires oldPropertyValue.Some? ==> HasType(oldPropertyValue.value, t)
    ensures Session(outcome, printed, linesRead) ==
            Acquire(propertyName, t, oldPropertyValue, customValidator, customPrompt, customError, lines, dt)
  {
    var isValid: Validator;
    match ValidatorFor(customValidator, propertyName) {
      case Failure(e) => return Thrown(e), [], 0;
      case Success(v) => isValid := v;
    }
    var prompt: string;
    match PromptFor(customPrompt, propertyName, oldPropertyValue, dt) {
      case Failure(e) => return Thrown(e), [], 0;
      case Success(p) => prompt := p;
    }
    printed := [prompt];
    var input := ReadLine(lines, 0);
    linesRead := 1;
    ghost var first := input;
    while !Accepts(isValid, input, dt)
      invariant 1 <= linesRead <= |lines| + 1
      invariant oldPropertyValue.Some? ==> linesRead == 1 && printed == [prompt]
      invariant oldPropertyValue.Some? ==>
        input == first || (input == Some(ValueToString(oldPropertyValue.value, dt)) && !Accepts(isValid, first, dt))
      invariant oldPropertyValue.None? ==> input == ReadLine(lines, linesRead - 1)
      invariant oldPropertyValue.None? ==> forall j | 0 <= j < linesRead - 1 :: !Accepts(isValid, ReadLine(lines, j), dt)
      invariant oldPropertyValue.None? && linesRead > 1 ==>
        ErrorFor(customError, propertyName).Success? &&
        printed == [prompt] + Repeat(ErrorFor(customError, propertyName).value, linesRead - 1)
      invariant linesRead == 1 ==> printed == [prompt]
      invariant oldPropertyValue.None? && linesRead == |lines| + 1 && |lines| > 0 ==> Accepts(isValid, None, dt)
      decreases |lines| + 1 - linesRead, if Accepts(isValid, input, dt) then 0 else 1
    {
      if oldPropertyValue.Some? {
        var fallback := Some(ValueToString(oldPropertyValue.value, dt));
        if !Accepts(isValid, fallback, dt) {
          assert !Accepts(isValid, first, dt);
          return Diverges, printed, linesRead;
        }
        input := fallback;
      } else {
        var err: string;
        match ErrorFor(customError, propertyName) {
          case Failure(e) => return Thrown(e), printed, linesRead;
          case Success(m) => err := m;
        }
        if linesRead >= |lines| && !Accepts(isValid, None, dt) {
          assert FirstAccepted(isValid, lines, 1, dt).None?;
          return Diverges, printed, linesRead;
        }
        printed := printed + [err];
        input := ReadLine(lines, linesRead);
        linesRead := linesRead + 1;
      }
    }
    outcome := Outcome(StringToGeneric(input, t, dt));
    if oldPropertyValue.None? && linesRead > 1 {
      var f := FirstAccepted(isValid, lines, 1, dt);
      assert f == Some(linesRead - 1);
    }
  }

  // ---------------------------------------------------------------- the fallback hazard

  /**
   * As written, a Boolean old value can never be kept: its text is "true" or
   * "false", whose first letter is neither 'y' nor 'n', so after one invalid
   * line the loop substitutes that text forever.
   */
  lemma BooleanOldValueDiverges(b: bool, lines: seq<Option<string>>, dt: DateTimeText)
    requires !YesNoIsValid(ReadLine(lines, 0))
    ensures Acquire("isSongArchived", BooleanType, Some(BooleanValue(b)), None, None, None, lines, dt).outcome == Diverges
  {
    var text := ValueToString(BooleanValue(b), dt);
    assert text[0] == (if b then 't' else 'f');
    assert !YesNoIsValid(Some(text));
  }

  /** The smallest input that shows it: end of input straight away while editing a song's archived flag. */
  lemma BooleanOldValueCounterexample(dt: DateTimeText)
    ensures Acquire("isSongArchived", BooleanType, Some(BooleanValue(false)), None, None, None, [], dt).outcome == Diverges
  {
    BooleanOldValueDiverges(false, [], dt);
  }

  /** An Int old value in range is kept: its text parses back to the same Int. */
  lemma IntOldValueKept(n: int, lines: seq<Option<string>>, dt: DateTimeText)
    requires 1 <= n <= 5
    requires !SongPriorityIsValid(ReadLine(lines, 0))
    ensures Acquire("songPriority", IntType, Some(IntValue(n)), None, None, None, lines, dt).outcome == Acquired(IntValue(n))
  {
    IntToStringRoundTrip(n);
  }

  /**
   * What the fallback evidently means to do: an update keeps the previous
   * value when the new line is invalid. Identical to `Acquire` except that the
   * old value itself is returned instead of its text being re-validated.
   */
  function AcquireKeepingOld(propertyName: string, t: TypeTag, oldValue: Option<Value>, customValidator: Option<Validator>,
                             customPrompt: Option<string>, customError: Option<string>,
                             lines: seq<Option<string>>, dt: DateTimeText): (r: Session)
    ensures oldValue.Some? ==> !r.outcome.Diverges?
    ensures oldValue.Some? && r.outcome.Acquired? && r.outcome.value != oldValue.value ==>
      ValidatorFor(customValidator, propertyName).Success? && Accepts(ValidatorFor(customValidator, propertyName).value, ReadLine(lines, 0), dt)
    ensures oldValue.Some? ==> r.linesRead <= 1
  {
    match ValidatorFor(customValidator, propertyName)
    case Failure(e) => Session(Thrown(e), [], 0)
    case Success(v) =>
      match PromptFor(customPrompt, propertyName, oldValue, dt)
      case Failure(e) => Session(Thrown(e), [], 0)
      case Success(prompt) =>
        var first := ReadLine(lines, 0);
        if Accepts(v, first, dt) then Session(Outcome(StringToGeneric(first, t, dt)), [prompt], 1)
        else if oldValue.Some? then Session(Acquired(oldValue.value), [prompt], 1)
        else Acquire(propertyName, t, oldValue, customValidator, customPrompt, customError, lines, dt)
  }

  /**
   * The two agree whenever the old value's text passes the validator and
   * coerces back to the old value, as it does for Int and String values; they
   * differ exactly where the source would loop forever.
   */
  lemma KeepingOldAgreesWhenTextRoundTrips(propertyName: string, t: TypeTag, oldValue: Option<Value>,
                                           customValidator: Option<Validator>, customPrompt: Option<string>,
                                           customError: Option<string>, lines: seq<Option<string>>, dt: DateTimeText)
    requires oldValue.Some? && ValidatorFor(customValidator, propertyName).Success?
    requires Accepts(ValidatorFor(customValidator, propertyName).value, Some(ValueToString(oldValue.value, dt)), dt)
    requires StringToGeneric(Some(ValueToString(oldValue.value, dt)), t, dt) == Success(oldValue.value)
    ensures Acquire(propertyName, t, oldValue, customValidator, customPrompt, customError, lines, dt) ==
            AcquireKeepingOld(propertyName, t, oldValue, customValidator, customPrompt, customError, lines, dt)
  {
  }

  /** The corrected loop keeps a Boolean old value where the source diverges. */
  lemma BooleanOldValueKeptWhenCorrected(b: bool, lines: seq<Option<string>>, dt: DateTimeText)
    requires !YesNoIsValid(ReadLine(lines, 0))
    ensures AcquireKeepingOld("isSongArchived", BooleanType, Some(BooleanValue(b)), None, None, None, lines, dt).outcome ==
            Acquired(BooleanValue(b))
  {
  }
}
