/**
 * The host objects the mapper reads from and writes to. Only the members the
 * mapper calls are modelled; each attribute store is a map from attribute name
 * to the single value the mapper writes.
 */
module KeycloakHost {

  /** A mapper's configuration: option name to option value. */
  type Config = map<string, string>

  /**
   * What `getJsonValue` yields for the configured profile field: no value
   * (`null`), a list, or any other value, kept as its `toString()` text.
   */
  datatype JsonValue = Absent | Multi | Scalar(text: string)

  /** The pending identity of a first login. */
  class BrokeredIdentityContext {
    var userAttributes: map<string, string>

    constructor (attributes: map<string, string>)
      ensures userAttributes == attributes
    {
      userAttributes := attributes;
    }

    /** `setUserAttribute(name, value)`: replaces whatever `name` held. */
    method SetUserAttribute(name: string, value: string)
      modifies this
      ensures userAttributes == old(userAttributes)[name := value]
    {
      userAttributes := userAttributes[name := value];
    }
  }

  /** A persisted user record. */
  class UserModel {
    var attributes: map<string, string>

    constructor (attributes: map<string, string>)
      ensures this.attributes == attributes
    {
      this.attributes := attributes;
    }

    /** `setSingleAttribute(name, value)`: `name` now holds `value` alone. */
    method SetSingleAttribute(name: string, value: string)
      modifies this
      ensures attributes == old(attributes)[name := value]
    {
      attributes := attributes[name := value];
    }

    /** `removeAttribute(name)`: `name` holds nothing afterwards. */
    method RemoveAttribute(name: string)
      modifies this
      ensures attributes == old(attributes) - {name}
    {
      attributes := attributes - {name};
    }
  }
}
