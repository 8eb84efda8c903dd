# Date attribute mapper

A model of `DateAttributeMapper`, a Keycloak identity-provider mapper. The
mapper reads one value from the upstream identity provider's profile. It
converts that value from a configured input date pattern to a configured output
date pattern and stores the result in a configured user attribute.

Two entry points share one decision procedure:

- `preprocessFederatedIdentity` runs at first login against the pending
  identity (`BrokeredIdentityContext`). It either sets the attribute or does
  nothing.
- `updateBrokeredUser` runs on later logins against the persisted user
  (`UserModel`). It sets the attribute, removes it, or does nothing. It removes
  it when the upstream value is missing or the conversion fails. It does nothing
  when the value is a list.

Files:

- `wrappers.dfy`: module `Wrappers`, the `Option` type that stands for Java's
  `null`.
- `java_string.dfy`: module `JavaString`, Java's `String.trim()` and the
  "blank after trimming" test. `trim()` strips every leading and trailing
  character whose code point is at most U+0020. `SkipLeading` and
  `SkipTrailing` are its two scans. The lemmas characterise the result: it is
  the unique slice with only spaces around it and none at its ends. Trimming is
  idempotent and ignores added padding.
- `keycloak_host.dfy`: module `KeycloakHost`, the host objects the mapper
  touches. The pending identity and the user record are classes, each holding
  an attribute store (`map<string, string>`) that their methods update in place.
  The mapper configuration is a `map<string, string>`. The profile value is
  `Absent | Multi | Scalar(text)`.
- `date_attribute_mapper.dfy`: module `DateAttributeMapper`.
  - `GetAttribute` and `ConvertDate` are pure functions.
  - The two entry points are methods with `modifies` on their target. Each
    method's `ensures` ties the target's new attribute store to
    `Apply(FirstLoginMutation(...), old store)` or
    `Apply(UpdateMutation(...), old store)`.
  - The decision functions return exactly one `Mutation`: `NoOp`, `Set(key, value)`
    or `Remove(key)`. The lemmas state the policy on those functions.

`SimpleDateFormat` is a parameter, `DateFormats(parse, format)`, and is left
uninterpreted. `parse(pattern, text)` returns `None` where the source catches a
`ParseException`. `format(pattern, date)` always returns a string. The
profile value that `getJsonValue` returns is the `JsonValue` argument of each
entry point.

`ConvertDate` returns `Converted(date)`, `NotConfigured(option)` or
`Unparseable`. The source returns `null` for every failure. The failure kept
here is the one the source's warning names, so the order of the checks is
visible: the input pattern is checked first, then the output pattern. Both
patterns reach the date formatter exactly as configured. They are checked for
blankness but not trimmed. The attribute name, in contrast, is trimmed
before use.

Two points the model takes from the code as written:

- Parsing is lenient: no `setLenient(false)` is called on the
  `SimpleDateFormat`. The model claims nothing about parsing beyond "fails or
  yields a date".
- The JSON field path is never checked by the mapper; reading the profile is
  the host's part.

## Model

| member | source | states |
|---|---|---|
| `JavaString.SkipLeading` | src/main/java/info/vrag/keycloak/broker/provider/DateAttributeMapper.java:182 | `trim()`'s start index: only spaces before it, and it is either the end or a non-space character |
| `JavaString.SkipTrailing` | src/main/java/info/vrag/keycloak/broker/provider/DateAttributeMapper.java:182 | `trim()`'s end index: only spaces after it, and it is either the start or just after a non-space character |
| `JavaString.Trim` | src/main/java/info/vrag/keycloak/broker/provider/DateAttributeMapper.java:182 | the trimmed name is the slice between an all-space prefix and an all-space suffix, and it neither starts nor ends with a space |
| `JavaString.TrimUnique` | src/main/java/info/vrag/keycloak/broker/provider/DateAttributeMapper.java:182 | any slice with only spaces outside it and no space at its ends is exactly what `trim()` returns |
| `JavaString.BlankIffAllSpace` | src/main/java/info/vrag/keycloak/broker/provider/DateAttributeMapper.java:178 | `trim().isEmpty()` holds exactly when every character is at most U+0020 |
| `JavaString.TrimFixesTrimmed` | src/main/java/info/vrag/keycloak/broker/provider/DateAttributeMapper.java:182 | a string without surrounding space is left unchanged by `trim()` |
| `JavaString.TrimIdempotent` | src/main/java/info/vrag/keycloak/broker/provider/DateAttributeMapper.java:182 | trimming an already trimmed name changes nothing |
| `JavaString.NotBlankWhenStartsWithText` | src/main/java/info/vrag/keycloak/broker/provider/DateAttributeMapper.java:152 | a value whose first character is not a space passes the blank test |
| `JavaString.TrimIgnoresPadding` | src/main/java/info/vrag/keycloak/broker/provider/DateAttributeMapper.java:182-183 | adding spaces around a string does not change its trim |
| `DateAttributeMapper.GetAttribute` | src/main/java/info/vrag/keycloak/broker/provider/DateAttributeMapper.java:176-184 | no name exactly when `userAttribute` is missing or all spaces; otherwise the trimmed value, which is non-empty and has no surrounding space |
| `DateAttributeMapper.ConvertDate` | src/main/java/info/vrag/keycloak/broker/provider/DateAttributeMapper.java:150-174 | the input pattern is checked first, then the output pattern. With both set, the result fails exactly when parsing with the untrimmed input pattern fails. Otherwise it is the parsed date formatted with the untrimmed output pattern |
| `DateAttributeMapper.PreprocessFederatedIdentity` | src/main/java/info/vrag/keycloak/broker/provider/DateAttributeMapper.java:103-124 | the pending identity's attributes become `Apply(FirstLoginMutation(...), old attributes)` |
| `DateAttributeMapper.UpdateBrokeredUser` | src/main/java/info/vrag/keycloak/broker/provider/DateAttributeMapper.java:126-148 | the user's attributes become `Apply(UpdateMutation(...), old attributes)` |
| `DateAttributeMapper.FirstLoginMutation` | src/main/java/info/vrag/keycloak/broker/provider/DateAttributeMapper.java:104-124 | the first-login decision never removes; it sets only the configured name and only for a scalar value, and it does nothing exactly when the name is missing, the value is not a scalar or the conversion fails (see also `FirstLoginSetsOnlyOnSuccess`) |
| `DateAttributeMapper.UpdateMutation` | src/main/java/info/vrag/keycloak/broker/provider/DateAttributeMapper.java:126-148 | the update decision does nothing exactly when the name is missing or the value is a list; otherwise it touches only the configured name, and it sets exactly when a scalar value converts (see also `UpdateReflectsSource`, `UpdateRemovesStaleValue`) |
| `DateAttributeMapper.UnconfiguredAttributeChangesNothing` | src/main/java/info/vrag/keycloak/broker/provider/DateAttributeMapper.java:106-131 | with `userAttribute` missing or blank, neither entry point changes anything, for every upstream value |
| `DateAttributeMapper.MutatedKeyIsTrimmedName` | src/main/java/info/vrag/keycloak/broker/provider/DateAttributeMapper.java:182-183 | every key set or removed is the trimmed `userAttribute` value: non-empty, with no surrounding whitespace |
| `DateAttributeMapper.AttributeNamePaddingIgnored` | src/main/java/info/vrag/keycloak/broker/provider/DateAttributeMapper.java:176-184 | padding the configured name with spaces addresses the same attribute |
| `DateAttributeMapper.FirstLoginSetsOnlyOnSuccess` | src/main/java/info/vrag/keycloak/broker/provider/DateAttributeMapper.java:111-123 | first login never removes. It sets exactly when the name is configured, the value is a scalar and the conversion succeeds, and then it sets the converted date |
| `DateAttributeMapper.UpdateRemovesStaleValue` | src/main/java/info/vrag/keycloak/broker/provider/DateAttributeMapper.java:133-146 | on update, an absent value removes the configured attribute. So does a failed conversion, whether the value does not parse or a pattern is missing |
| `DateAttributeMapper.UpdateSetsOnSuccess` | src/main/java/info/vrag/keycloak/broker/provider/DateAttributeMapper.java:142-147 | on update, a successful conversion overwrites the attribute with the converted date |
| `DateAttributeMapper.MultiValueChangesNothing` | src/main/java/info/vrag/keycloak/broker/provider/DateAttributeMapper.java:115-141 | a list value leaves the attribute store as it was under both entry points, including any earlier value of the attribute |
| `DateAttributeMapper.MutationTouchesOnlyItsKey` | src/main/java/info/vrag/keycloak/broker/provider/DateAttributeMapper.java:123-147 | under either entry point, every attribute other than the configured one keeps its presence and value |
| `DateAttributeMapper.UpdateReflectsSource` | src/main/java/info/vrag/keycloak/broker/provider/DateAttributeMapper.java:133-147 | unless the value is a list, after an update the attribute is present exactly when the value converts, and then holds the converted date |
| `DateAttributeMapper.ApplyIdempotent` | src/main/java/info/vrag/keycloak/broker/provider/DateAttributeMapper.java:133-147 | carrying out the same set, remove or no-op twice leaves the store as carrying it out once, so repeating an update with the same inputs changes nothing further |
| `DateAttributeMapper.UpdateOverridesPriorValue` | src/main/java/info/vrag/keycloak/broker/provider/DateAttributeMapper.java:133-147 | unless the value is a list, what an update leaves under the configured attribute does not depend on the record's earlier value |
| `DateAttributeMapper.EntryPointsDifferOnlyInRemoval` | src/main/java/info/vrag/keycloak/broker/provider/DateAttributeMapper.java:104-148 | the two entry points decide alike, except where first login does nothing and update removes |
| `DateAttributeMapper.BirthdateExampleAbsent` | src/main/java/info/vrag/keycloak/broker/provider/DateAttributeMapper.java:111-136 | with attribute `" birthdate "` and no upstream value, first login does nothing and update removes `birthdate` |
| `DateAttributeMapper.BirthdateExampleAccepted` | src/main/java/info/vrag/keycloak/broker/provider/DateAttributeMapper.java:119-147 | `1990-07-15` under `yyyy-MM-dd` to `dd/MM/yyyy` sets `birthdate = 15/07/1990` on both entry points when the formatter yields that |
| `DateAttributeMapper.BirthdateExampleRejected` | src/main/java/info/vrag/keycloak/broker/provider/DateAttributeMapper.java:142-146 | a value the input pattern rejects is never set at first login and removes `birthdate` on update |
| `KeycloakHost.BrokeredIdentityContext.SetUserAttribute` | src/main/java/info/vrag/keycloak/broker/provider/DateAttributeMapper.java:123 | the named attribute holds the value; the others are unchanged |
| `KeycloakHost.UserModel.SetSingleAttribute` | src/main/java/info/vrag/keycloak/broker/provider/DateAttributeMapper.java:147 | the named attribute holds the value; the others are unchanged |
| `KeycloakHost.UserModel.RemoveAttribute` | src/main/java/info/vrag/keycloak/broker/provider/DateAttributeMapper.java:135 | the named attribute is gone; the others are unchanged |

## Left out

- `SimpleDateFormat` semantics (lines 163-168) are opaque. That covers leniency,
  trailing text, locale and time zone. So no strict parsing is claimed, and no
  round trip through the date domain is claimed either.
- `ConvertDate`: a non-blank pattern that `SimpleDateFormat` rejects would throw
  an uncaught `IllegalArgumentException` at lines 163-164, out of either entry
  point. The model treats every non-blank pattern as accepted. Both formatters
  are built before parsing, so an invalid output pattern throws even for a value
  that would not parse. In that case the source leaves the record unchanged,
  while the model removes the attribute on update.
- `getJsonValue` (lines 111, 133) is inherited host code and is not part of
  this model. Its result is the `JsonValue` argument, with `value.toString()` as
  the scalar's text. So "the value is not read when the attribute is not
  configured" is stated as "the outcome is the same for every value".
- The attribute stores are `map<string, string>`. Keycloak keeps a list of values
  per attribute. The mapper only ever writes a single value or removes the whole
  attribute, so lists add nothing to the policy.
- Logging and `e.printStackTrace()` (lines 116, 139, 153, 159, 170, 179) are
  diagnostics only. The reason carried by `NotConfigured` stands in for the two
  "not configured" warnings.
- `KeycloakSession` and `RealmModel` parameters (lines 104, 126) are unused.
- The configuration-property registration block and the metadata getters
  (lines 35-101) are UI and registry constants with no behaviour.
- Java `char` is a UTF-16 code unit and Dafny `char` a Unicode scalar value.
  Every character `trim()` strips lies below U+0021, so the trimming model is
  the same for both.
