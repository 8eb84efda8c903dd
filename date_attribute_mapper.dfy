/**
 * An identity-provider mapper that reads one date value from the upstream
 * profile, converts it from a configured input date pattern to a configured
 * output date pattern, and writes the result to a configured user attribute.
 *
 * Two entry points share one decision procedure and differ only in the target
 * and in what a failure means: at first login (`PreprocessFederatedIdentity`)
 * a failure leaves the pending identity alone; on later logins
 * (`UpdateBrokeredUser`) it removes the attribute from the user record so that
 * no stale value lingers.
 */
module DateAttributeMapper {
  import opened Wrappers
  import opened JavaString
  import opened KeycloakHost

  /** Option naming the user attribute to write. */
  const ConfUserAttribute: string := "userAttribute"
  /** Option holding the date pattern of the upstream value. */
  const ConfDateInputPattern: string := "dateInputPattern"
  /** Option holding the date pattern of the stored value. */
  const ConfDateOutputPattern: string := "dateOutputPattern"

  /** `java.util.Date`: milliseconds since the epoch. */
  type Date = int

  /**
   * The `SimpleDateFormat` step, left uninterpreted: `parse(pattern, text)`
   * fails (`None`, the source's `ParseException`) or yields a date, and
   * `format(pattern, date)` renders a date.
   */
  datatype DateFormats = DateFormats(
    parse: (string, string) -> Option<Date>,
    format: (string, Date) -> string)

  /**
   * Outcome of `convertDate`. The source returns `null` for both failures; the
   * failure carried here is the one its warning names.
   */
  datatype Conversion =
    | Converted(date: string)
    | NotConfigured(option: string)
    | Unparseable

  /** `config.get(option)` is neither `null` nor blank after trimming. */
  predicate Configured(config: Config, option: string) {
    option in config && !IsBlank(config[option])
  }

  /**
   * `getAttribute`: the trimmed attribute name, or nothing when the option is
   * missing or holds only spaces.
   */
  function GetAttribute(config: Config): (r: Option<string>)
    ensures r.None? <==> ConfUserAttribute !in config || AllSpace(config[ConfUserAttribute])
    ensures r.Some? ==> r.value == Trim(config[ConfUserAttribute])
    ensures r.Some? ==> r.value != [] && NoSurroundingSpace(r.value)
  {
    if ConfUserAttribute !in config then None
    else
      BlankIffAllSpace(config[ConfUserAttribute]);
      if IsBlank(config[ConfUserAttribute]) then None
      else Some(Trim(config[ConfUserAttribute]))
  }

  /**
   * `convertDate`: checks the input pattern, then the output pattern, and only
   * then parses `dateStr` with the input pattern and formats the date with the
   * output pattern. Both patterns are handed over as configured, untrimmed.
   */
  function ConvertDate(config: Config, dateStr: string, formats: DateFormats): (r: Conversion)
    ensures r == NotConfigured(ConfDateInputPattern) <==> !Configured(config, ConfDateInputPattern)
    ensures r == NotConfigured(ConfDateOutputPattern)
            <==> Configured(config, ConfDateInputPattern) && !Configured(config, ConfDateOutputPattern)
    ensures r.Unparseable?
            <==> Configured(config, ConfDateInputPattern) && Configured(config, ConfDateOutputPattern)
                 && formats.parse(config[ConfDateInputPattern], dateStr).None?
    ensures r.Converted?
            <==> Configured(config, ConfDateInputPattern) && Configured(config, ConfDateOutputPattern)
                 && formats.parse(config[ConfDateInputPattern], dateStr).Some?
    ensures r.Converted? ==>
              r.date == formats.format(config[ConfDateOutputPattern],
                                       formats.parse(config[ConfDateInputPattern], dateStr).value)
    ensures r.NotConfigured? ==> r.option in {ConfDateInputPattern, ConfDateOutputPattern}
  {
    if !Configured(config, ConfDateInputPattern) then NotConfigured(ConfDateInputPattern)
    else if !Configured(config, ConfDateOutputPattern) then NotConfigured(ConfDateOutputPattern)
    else
      match formats.parse(config[ConfDateInputPattern], dateStr)
      case None => Unparseable
      case Some(date) => Converted(formats.format(config[ConfDateOutputPattern], date))
  }

  /** The one change an entry point makes to an attribute store. */
  datatype Mutation = NoOp | Set(key: string, value: string) | Remove(key: string)

  /** The store after `m`. */
  function Apply(m: Mutation, attributes: map<string, string>): map<string, string> {
    match m
    case NoOp => attributes
    case Set(key, value) => attributes[key := value]
    case Remove(key) => attributes - {key}
  }

  /** `a` and `b` agree on every attribute except possibly `key`. */
  ghost predicate SameExcept(a: map<string, string>, b: map<string, string>, key: string) {
    forall k :: k != key ==> (k in a <==> k in b) && (k in a ==> a[k] == b[k])
  }

  /** The decision `preprocessFederatedIdentity` carries out. */
  function FirstLoginMutation(config: Config, value: JsonValue, formats: DateFormats): (r: Mutation)
    ensures !r.Remove?
    ensures r.Set? ==> GetAttribute(config) == Some(r.key) && value.Scalar?
    ensures r.NoOp? <==> GetAttribute(config).None? || !value.Scalar?
                         || !ConvertDate(config, value.text, formats).Converted?
  {
    match GetAttribute(config)
    case None => NoOp
    case Some(attribute) =>
      match value
      case Absent => NoOp
      case Multi => NoOp
      case Scalar(text) =>
        match ConvertDate(config, text, formats)
        case Converted(date) => Set(attribute, date)
        case _ => NoOp
  }

  /** The decision `updateBrokeredUser` carries out. */
  function UpdateMutation(config: Config, value: JsonValue, formats: DateFormats): (r: Mutation)
    ensures r.NoOp? <==> GetAttribute(config).None? || value.Multi?
    ensures !r.NoOp? ==> GetAttribute(config) == Some(r.key)
    ensures r.Set? <==> GetAttribute(config).Some? && value.Scalar?
                        && ConvertDate(config, value.text, formats).Converted?
  {
    match GetAttribute(config)
    case None => NoOp
    case Some(attribute) =>
      match value
      case Absent => Remove(attribute)
      case Multi => NoOp
      case Scalar(text) =>
        match ConvertDate(config, text, formats)
        case Converted(date) => Set(attribute, date)
        case _ => Remove(attribute)
  }

  /**
   * `preprocessFederatedIdentity`, first login: `value` is what `getJsonValue`
   * returned for the pending identity.
   */
  method PreprocessFederatedIdentity(config: Config, value: JsonValue, formats: DateFormats,
                                     context: BrokeredIdentityContext)
    modifies context
    ensures context.userAttributes
            == Apply(FirstLoginMutation(config, value, formats), old(context.userAttributes))
  {
    var attribute := GetAttribute(config);
    if attribute.None? {
      return;
    }
    if value.Absent? {
      return;
    }
    if value.Multi? {
      return;
    }
    var convertedDate := ConvertDate(config, value.text, formats);
    if !convertedDate.Converted? {
      return;
    }
    context.SetUserAttribute(attribute.value, convertedDate.date);
  }

  /**
   * `updateBrokeredUser`, later logins: `value` is what `getJsonValue`
   * returned for the brokered identity.
   */
  method UpdateBrokeredUser(config: Config, value: JsonValue, formats: DateFormats, user: UserModel)
    modifies user
    ensures user.attributes == Apply(UpdateMutation(config, value, formats), old(user.attributes))
  {
    var attribute := GetAttribute(config);
    if attribute.None? {
      return;
    }
    if value.Absent? {
      user.RemoveAttribute(attribute.value);
      return;
    }
    if value.Multi? {
      return;
    }
    var convertedDate := ConvertDate(config, value.text, formats);
    if !convertedDate.Converted? {
      user.RemoveAttribute(attribute.value);
      return;
    }
    user.SetSingleAttribute(attribute.value, convertedDate.date);
  }

  // ---------------------------------------------------------------------------
  // Properties of the policy
  // ---------------------------------------------------------------------------

  /**
   * Without a usable attribute name neither entry point changes anything,
   * whatever the upstream value is.
   */
  lemma UnconfiguredAttributeChangesNothing(config: Config, value: JsonValue, formats: DateFormats)
    requires ConfUserAttribute !in config || AllSpace(config[ConfUserAttribute])
    ensures FirstLoginMutation(config, value, formats) == NoOp
    ensures UpdateMutation(config, value, formats) == NoOp
  {
  }

  /**
   * Whatever is set or removed is the configured attribute name, trimmed: it is
   * never empty and never starts or ends with a space.
   */
  lemma MutatedKeyIsTrimmedName(config: Config, value: JsonValue, formats: DateFormats)
    ensures FirstLoginMutation(config, value, formats) != NoOp ==>
              && ConfUserAttribute in config
              && FirstLoginMutation(config, value, formats).key == Trim(config[ConfUserAttribute])
              && FirstLoginMutation(config, value, formats).key != []
              && NoSurroundingSpace(FirstLoginMutation(config, value, formats).key)
    ensures UpdateMutation(config, value, formats) != NoOp ==>
              && ConfUserAttribute in config
              && UpdateMutation(config, value, formats).key == Trim(config[ConfUserAttribute])
              && UpdateMutation(config, value, formats).key != []
              && NoSurroundingSpace(UpdateMutation(config, value, formats).key)
  {
  }

  /**
   * Padding the configured attribute name with spaces changes nothing:
   * `" birthdate "` and `"birthdate"` address the same attribute.
   */
  lemma AttributeNamePaddingIgnored(config: Config, pre: string, name: string, post: string)
    requires AllSpace(pre) && AllSpace(post)
    ensures GetAttribute(config[ConfUserAttribute := pre + name + post])
            == GetAttribute(config[ConfUserAttribute := name])
  {
    var padded := pre + name + post;
    TrimIgnoresPadding(pre, name, post);
    BlankIffAllSpace(padded);
    BlankIffAllSpace(name);
  }

  /**
   * First login never removes: it sets the attribute exactly when the name is
   * configured, the value is a scalar and the conversion succeeds, and then to
   * the converted date.
   */
  lemma FirstLoginSetsOnlyOnSuccess(config: Config, value: JsonValue, formats: DateFormats)
    ensures !FirstLoginMutation(config, value, formats).Remove?
    ensures FirstLoginMutation(config, value, formats).Set?
            <==> GetAttribute(config).Some? && value.Scalar?
                 && ConvertDate(config, value.text, formats).Converted?
    ensures FirstLoginMutation(config, value, formats).Set? ==>
              FirstLoginMutation(config, value, formats)
              == Set(GetAttribute(config).value, ConvertDate(config, value.text, formats).date)
  {
  }

  /**
   * On update, an absent value or a failed conversion (unparseable value or a
   * missing pattern) removes the configured attribute.
   */
  lemma UpdateRemovesStaleValue(config: Config, value: JsonValue, formats: DateFormats)
    requires GetAttribute(config).Some?
    requires value.Absent? || (value.Scalar? && !ConvertDate(config, value.text, formats).Converted?)
    ensures UpdateMutation(config, value, formats) == Remove(GetAttribute(config).value)
  {
  }

  /** On update, a successful conversion overwrites the attribute. */
  lemma UpdateSetsOnSuccess(config: Config, value: JsonValue, formats: DateFormats)
    requires GetAttribute(config).Some? && value.Scalar?
    requires ConvertDate(config, value.text, formats).Converted?
    ensures UpdateMutation(config, value, formats)
            == Set(GetAttribute(config).value, ConvertDate(config, value.text, formats).date)
  {
  }

  /** A list value changes nothing under either entry point. */
  lemma MultiValueChangesNothing(config: Config, formats: DateFormats, attributes: map<string, string>)
    ensures Apply(FirstLoginMutation(config, Multi, formats), attributes) == attributes
    ensures Apply(UpdateMutation(config, Multi, formats), attributes) == attributes
  {
  }

  /** Every mutation leaves every attribute but its own key as it was. */
  lemma MutationTouchesOnlyItsKey(config: Config, value: JsonValue, formats: DateFormats,
                                  attributes: map<string, string>)
    ensures GetAttribute(config).Some? ==>
              && SameExcept(attributes, Apply(FirstLoginMutation(config, value, formats), attributes),
                            GetAttribute(config).value)
              && SameExcept(attributes, Apply(UpdateMutation(config, value, formats), attributes),
                            GetAttribute(config).value)
    ensures GetAttribute(config).None? ==>
              && Apply(FirstLoginMutation(config, value, formats), attributes) == attributes
              && Apply(UpdateMutation(config, value, formats), attributes) == attributes
  {
  }

  /**
   * Unless the value is a list, an update leaves the user record in step with
   * the upstream profile: the attribute is present exactly when the value
   * converts, and then holds the converted date.
   */
  lemma UpdateReflectsSource(config: Config, value: JsonValue, formats: DateFormats,
                             attributes: map<string, string>)
    requires GetAttribute(config).Some? && !value.Multi?
    ensures var after := Apply(UpdateMutation(config, value, formats), attributes);
            var key := GetAttribute(config).value;
            && (key in after <==> value.Scalar? && ConvertDate(config, value.text, formats).Converted?)
            && (key in after ==> after[key] == ConvertDate(config, value.text, formats).date)
  {
  }

  /** Applying the same decision twice is the same as applying it once. */
  lemma ApplyIdempotent(m: Mutation, attributes: map<string, string>)
    ensures Apply(m, Apply(m, attributes)) == Apply(m, attributes)
  {
  }

  /**
   * Unless the value is a list, what an update leaves under the configured
   * attribute does not depend on what the record held before: two records
   * updated with the same inputs agree on it.
   */
  lemma UpdateOverridesPriorValue(config: Config, value: JsonValue, formats: DateFormats,
                                  before1: map<string, string>, before2: map<string, string>)
    requires GetAttribute(config).Some? && !value.Multi?
    ensures var m := UpdateMutation(config, value, formats);
            var after1, after2 := Apply(m, before1), Apply(m, before2);
            var key := GetAttribute(config).value;
            && (key in after1 <==> key in after2)
            && (key in after1 ==> after1[key] == after2[key])
  {
  }

  /**
   * The two entry points decide alike except where first login does nothing
   * and update removes.
   */
  lemma EntryPointsDifferOnlyInRemoval(config: Config, value: JsonValue, formats: DateFormats)
    ensures || FirstLoginMutation(config, value, formats) == UpdateMutation(config, value, formats)
            || (FirstLoginMutation(config, value, formats) == NoOp
                && UpdateMutation(config, value, formats).Remove?)
  {
  }

  /**
   * A worked example: with attribute `" birthdate "` and both
   * patterns set, a missing upstream value leaves a first login alone and
   * removes `birthdate` on update, whatever the date formats do.
   */
  lemma BirthdateExampleAbsent(formats: DateFormats)
    ensures var config := map[ConfDateInputPattern := "yyyy-MM-dd",
                               ConfDateOutputPattern := "dd/MM/yyyy",
                               ConfUserAttribute := " birthdate "];
            && FirstLoginMutation(config, Absent, formats) == NoOp
            && UpdateMutation(config, Absent, formats) == Remove("birthdate")
  {
    var padded := " birthdate ";
    assert padded[1..10] == "birthdate";
    TrimUnique(padded, 1, 10);
  }

  /** The example's configuration, read the way the mapper reads it. */
  lemma BirthdateConfigUsable(config: Config)
    requires config == map[ConfDateInputPattern := "yyyy-MM-dd",
                           ConfDateOutputPattern := "dd/MM/yyyy",
                           ConfUserAttribute := "birthdate"]
    ensures GetAttribute(config) == Some("birthdate")
    ensures Configured(config, ConfDateInputPattern) && config[ConfDateInputPattern] == "yyyy-MM-dd"
    ensures Configured(config, ConfDateOutputPattern) && config[ConfDateOutputPattern] == "dd/MM/yyyy"
  {
    TrimFixesTrimmed("birthdate");
    NotBlankWhenStartsWithText("yyyy-MM-dd");
    NotBlankWhenStartsWithText("dd/MM/yyyy");
  }

  /** The same example with a date the input pattern accepts: both entry points set it. */
  lemma BirthdateExampleAccepted(config: Config, formats: DateFormats, july15: Date)
    requires config == map[ConfDateInputPattern := "yyyy-MM-dd",
                           ConfDateOutputPattern := "dd/MM/yyyy",
                           ConfUserAttribute := "birthdate"]
    requires formats.parse("yyyy-MM-dd", "1990-07-15") == Some(july15)
    requires formats.format("dd/MM/yyyy", july15) == "15/07/1990"
    ensures FirstLoginMutation(config, Scalar("1990-07-15"), formats) == Set("birthdate", "15/07/1990")
    ensures UpdateMutation(config, Scalar("1990-07-15"), formats) == Set("birthdate", "15/07/1990")
  {
    BirthdateConfigUsable(config);
  }

  /**
   * The same example with a date the input pattern rejects: never set at first
   * login, removed on update.
   */
  lemma BirthdateExampleRejected(config: Config, formats: DateFormats)
    requires config == map[ConfDateInputPattern := "yyyy-MM-dd",
                           ConfDateOutputPattern := "dd/MM/yyyy",
                           ConfUserAttribute := "birthdate"]
    requires formats.parse("yyyy-MM-dd", "15-07-1990") == None
    ensures FirstLoginMutation(config, Scalar("15-07-1990"), formats) == NoOp
    ensures UpdateMutation(config, Scalar("15-07-1990"), formats) == Remove("birthdate")
  {
    BirthdateConfigUsable(config);
  }
}
