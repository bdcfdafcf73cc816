/** The value tree of a TOML document. Reading and printing the text form is
    not part of this model. */
module Toml {
  import opened Wrappers

  const I64_MAX: int := 0x7FFF_FFFF_FFFF_FFFF

  type i64 = n: int | -I64_MAX - 1 <= n <= I64_MAX

  datatype Value =
    | Str(text: string)
    | Integer(number: i64)
    | Float(digits: string)
    | Boolean(flag: bool)
    | Datetime(stamp: string)
    | Array(items: seq<Value>)
    | Table(entries: Map)

  type Map = map<string, Value>

  /** Looking a key up; everything but a table has no keys. */
  function Get(value: Value, key: string): Option<Value> {
    if value.Table? && key in value.entries then Some(value.entries[key]) else None
  }

  function GetStr(value: Value, key: string): Option<string> {
    match Get(value, key)
    case Some(Str(text)) => Some(text)
    case _ => None
  }

  datatype ConfigError = Unparseable | RootNotTable | KeyNotTable(key: string) | KeyNotArray(key: string)

  /** A configuration file: absent, unreadable, or a document. A file of blanks
      reads like an absent one. */
  datatype FileState = Missing | Garbled | Document(value: Value)

  function ReadConfigValue(file: FileState): Result<Value, ConfigError> {
    match file
    case Missing => Ok(Table(map[]))
    case Garbled => Err(Unparseable)
    case Document(value) => Ok(value)
  }
}
