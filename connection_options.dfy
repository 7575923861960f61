/** The choice of driver options in `executeCqlStatement`: the `connection`
    setting is used as it is when it is truthy; otherwise options are built
    from the `address` setting alone. */
module ConnectionOptions {

  /** The JavaScript values a setting can hold, as far as truthiness is
      concerned.  An object or array setting is opaque here. */
  datatype JsValue =
    | Undefined
    | Null
    | Bool(b: bool)
    | Number(n: int)
    | Str(s: string)
    | Object(id: nat)

  /** JavaScript's `!!v`: false exactly for the falsy values. */
  predicate Truthy(v: JsValue)
    ensures !Truthy(v) <==> v in {Undefined, Null, Bool(false), Number(0), Str("")}
  {
    match v
    case Undefined => false
    case Null => false
    case Bool(b) => b
    case Number(n) => n != 0
    case Str(s) => s != ""
    case Object(_) => true
  }

  /** The options given to the driver's client: the `connection` setting
      itself, or a record whose `contactPoints` and `hosts` are built from
      the address. */
  datatype ClientOptions =
    | Configured(setting: JsValue)
    | FromAddress(contactPoints: seq<string>, hosts: seq<string>)

  /** src/cqlExecutor.ts lines 37-42. */
  function ChooseClientOptions(connection: JsValue, address: string): (r: ClientOptions)
    ensures Truthy(connection) ==> r == Configured(connection)
    ensures !Truthy(connection) ==> r.FromAddress? && r.contactPoints == [address] && r.hosts == [address]
    ensures r.Configured? ==> Truthy(r.setting)
  {
    if Truthy(connection) then Configured(connection)
    else FromAddress([address], [address])
  }

  /** The falsy settings are exactly the five JavaScript falsy values this
      type can hold (unset, null, false, 0 and the empty string), and every
      one of them leads to the address-built options. */
  lemma FalsySettingsFallBack(connection: JsValue, address: string)
    ensures !Truthy(connection) <==> connection in {Undefined, Null, Bool(false), Number(0), Str("")}
    ensures connection in {Undefined, Null, Bool(false), Number(0), Str("")} ==>
      ChooseClientOptions(connection, address) == FromAddress([address], [address])
  {
  }
}
