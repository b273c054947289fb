/** config.py: every setting is read from the process environment through
    `_getenv`, in module order, when the module is imported. The environment
    is a parameter here (a map from variable name to value). */
module Config {
  import opened Results
  import opened Text

  type Env = map<string, string>

  /** The optional `cast` argument: none, or `int`. */
  datatype Cast = NoCast | IntCast

  /** What `_getenv` can return: the default `None`, a string, or an int. */
  datatype Setting = Unset | Str(text: string) | Num(n: int)

  /** The exceptions import can raise: the `RuntimeError` for a missing
      required variable, and the `ValueError` of `int(raw)`. */
  datatype EnvError = MissingRequired(name: string) | NotAnInt(name: string, raw: string)

  const DefaultReminderMinutes := 10
  const DefaultCancelMinutes := 30
  const DefaultCacheTtlSeconds := 600
  const DefaultTimeZone := "Europe/Moscow"
  const DefaultEarlyHour := 10
  const DefaultLateHour := 22

  /** `os.getenv(name, None)` followed by the `is None or == ""` test. */
  predicate Blank(env: Env, name: string) {
    name !in env || env[name] == ""
  }

  function GetEnv(env: Env, name: string, required: bool, cast: Cast, default: Setting): (r: Result<Setting, EnvError>)
    ensures Blank(env, name) && required <==> r == Failure(MissingRequired(name))
    ensures Blank(env, name) && !required ==> r == Success(default)
    ensures !Blank(env, name) && cast == NoCast ==> r == Success(Str(env[name]))
    ensures !Blank(env, name) && cast == IntCast ==>
      (r.Success? <==> ParseInt(env[name]).Some?) &&
      (r.Success? ==> r.value == Num(ParseInt(env[name]).value)) &&
      (r.Failure? ==> r.error == NotAnInt(name, env[name]))
  {
    if Blank(env, name) then
      if required then Failure(MissingRequired(name)) else Success(default)
    else
      var raw := env[name];
      match cast
      case NoCast => Success(Str(raw))
      case IntCast =>
        match ParseInt(raw)
        case Some(n) => Success(Num(n))
        case None => Failure(NotAnInt(name, raw))
  }

  /** An unset variable and one set to the empty string read the same. */
  lemma UnsetSameAsEmpty(env: Env, name: string, required: bool, cast: Cast, default: Setting)
    ensures GetEnv(env - {name}, name, required, cast, default) == GetEnv(env[name := ""], name, required, cast, default)
  {
  }

  /** The settings the rest of the bot imports. */
  datatype Settings = Settings(
    botToken: string,
    operatorChatId: int,
    spreadsheetId: string,
    shopId: Option<string>,
    apiKey: Option<string>,
    domain: Option<string>,
    qrImageUrl: string,
    reminderMinutes: int,
    cancelMinutes: int,
    cacheTtlSeconds: int,
    timeZone: string,
    earlyHour: int,
    lateHour: int)

  function RequiredText(env: Env, name: string): (r: Result<string, EnvError>)
    ensures r.Success? <==> !Blank(env, name)
    ensures r.Success? ==> r.value == env[name]
  {
    var v :- GetEnv(env, name, true, NoCast, Unset);
    Success(v.text)
  }

  function RequiredInt(env: Env, name: string): (r: Result<int, EnvError>)
    ensures r.Success? <==> !Blank(env, name) && ParseInt(env[name]).Some?
    ensures r.Success? ==> Some(r.value) == ParseInt(env[name])
  {
    var v :- GetEnv(env, name, true, IntCast, Unset);
    Success(v.n)
  }

  function OptionalText(env: Env, name: string): (r: Option<string>)
    ensures r.None? <==> Blank(env, name)
    ensures r.Some? ==> r.value == env[name]
  {
    if Blank(env, name) then None else Some(env[name])
  }

  function OptionalTextOr(env: Env, name: string, default: string): (r: string)
    ensures Blank(env, name) ==> r == default
    ensures !Blank(env, name) ==> r == env[name]
  {
    match GetEnv(env, name, false, NoCast, Str(default))
    case Success(v) => v.text
    case Failure(_) => default
  }

  function OptionalInt(env: Env, name: string, default: int): (r: Result<int, EnvError>)
    ensures Blank(env, name) ==> r == Success(default)
    ensures !Blank(env, name) ==> (r.Success? <==> ParseInt(env[name]).Some?)
    ensures !Blank(env, name) && r.Success? ==> Some(r.value) == ParseInt(env[name])
  {
    var v :- GetEnv(env, name, false, IntCast, Num(default));
    Success(v.n)
  }

  /** Importing config.py: the first failing `_getenv` raises. */
  function LoadSettings(env: Env): (r: Result<Settings, EnvError>)
  {
    var token :- RequiredText(env, "BOT_TOKEN");
    var operator :- RequiredInt(env, "OPERATOR_CHAT_ID");
    var sheet :- RequiredText(env, "SPREADSHEET_ID");
    var shop := OptionalText(env, "YOOKASSA_SHOP_ID");
    var key := OptionalText(env, "YOOKASSA_API_KEY");
    var domain := OptionalText(env, "DOMAIN");
    var qr :- RequiredText(env, "QR_IMAGE_URL");
    var reminder :- OptionalInt(env, "QR_REMINDER_MINUTES", DefaultReminderMinutes);
    var cancel :- OptionalInt(env, "QR_CANCEL_MINUTES", DefaultCancelMinutes);
    var ttl :- OptionalInt(env, "SHEETS_CACHE_TTL_SECONDS", DefaultCacheTtlSeconds);
    var tz := OptionalTextOr(env, "MSK_TZ", DefaultTimeZone);
    var early :- OptionalInt(env, "EARLY_PAYMENT_HOUR", DefaultEarlyHour);
    var late :- OptionalInt(env, "LATE_PAYMENT_HOUR", DefaultLateHour);
    Success(Settings(token, operator, sheet, shop, key, domain, qr, reminder, cancel, ttl, tz, early, late))
  }

  /** The required variables must be set and the operator chat id must be an
      int; then the optional ones fall back to their defaults. */
  predicate RequiredPresent(env: Env) {
    && !Blank(env, "BOT_TOKEN")
    && !Blank(env, "OPERATOR_CHAT_ID") && ParseInt(env["OPERATOR_CHAT_ID"]).Some?
    && !Blank(env, "SPREADSHEET_ID")
    && !Blank(env, "QR_IMAGE_URL")
  }

  predicate OptionalUnset(env: Env) {
    && Blank(env, "QR_REMINDER_MINUTES")
    && Blank(env, "QR_CANCEL_MINUTES")
    && Blank(env, "SHEETS_CACHE_TTL_SECONDS")
    && Blank(env, "MSK_TZ")
    && Blank(env, "EARLY_PAYMENT_HOUR")
    && Blank(env, "LATE_PAYMENT_HOUR")
  }

  /** Illustration of `LoadSettings` at the defaults. With every optional
      variable unset, loading succeeds with reminder 10, cancel 30, cache
      600 s, Europe/Moscow, early hour 10 and late hour 22, and the QR image
      link is never empty. */
  lemma DefaultsApply(env: Env)
    requires RequiredPresent(env) && OptionalUnset(env)
    ensures LoadSettings(env).Success?
    ensures var s := LoadSettings(env).value;
      && s.reminderMinutes == 10 && s.cancelMinutes == 30 && s.cacheTtlSeconds == 600
      && s.timeZone == "Europe/Moscow" && s.earlyHour == 10 && s.lateHour == 22
      && s.qrImageUrl != "" && s.botToken == env["BOT_TOKEN"]
  {
  }

  /** Illustration of the error order: a missing bot token is reported
      before anything else is read. */
  lemma MissingTokenFails(env: Env)
    requires Blank(env, "BOT_TOKEN")
    ensures LoadSettings(env) == Failure(MissingRequired("BOT_TOKEN"))
  {
  }

  /** Any successful load has every required value non-empty. */
  lemma LoadedRequiredNonEmpty(env: Env)
    requires LoadSettings(env).Success?
    ensures RequiredPresent(env)
    ensures LoadSettings(env).value.qrImageUrl == env["QR_IMAGE_URL"]
    ensures Some(LoadSettings(env).value.operatorChatId) == ParseInt(env["OPERATOR_CHAT_ID"])
  {
  }

  /** Nothing makes the reminder come before the timeout: any decimal
      reminder loads beside the default 30-minute timeout, 40 as well as 5. */
  lemma ReminderNotCheckedAgainstCancel(env: Env, n: nat)
    requires RequiredPresent(env)
    requires "QR_REMINDER_MINUTES" in env && env["QR_REMINDER_MINUTES"] == NatToString(n)
    requires Blank(env, "QR_CANCEL_MINUTES") && Blank(env, "SHEETS_CACHE_TTL_SECONDS")
    requires Blank(env, "EARLY_PAYMENT_HOUR") && Blank(env, "LATE_PAYMENT_HOUR")
    ensures LoadSettings(env).Success?
    ensures LoadSettings(env).value.reminderMinutes == n
    ensures LoadSettings(env).value.cancelMinutes == 30
  {
    ParseIntOfNatToString(n);
  }
}
