/** The Windows registry as the plugin sees it through
    `golang.org/x/sys/windows/registry`: keys are opened by root and path, and
    values are read from an open key by name as a string or as an integer. The
    registry itself is an abstract store: which keys cannot be opened (and
    with what error), and what each value read yields. */
module WinRegistry {
  import opened GoRuntime

  datatype RootKey = CLASSES_ROOT | CURRENT_USER | LOCAL_MACHINE | USERS | CURRENT_CONFIG | PERFORMANCE_DATA

  /** `registry.QUERY_VALUE`, the access right every open of the plugin asks for. */
  const QUERY_VALUE: nat := 0x0001

  /** The Windows error a read of a missing value reports. */
  const ERROR_FILE_NOT_FOUND: nat := 2
  /** The Windows error a read through a handle that was never opened reports. */
  const ERROR_INVALID_HANDLE: nat := 6

  /** A stored value: a string (REG_SZ, REG_EXPAND_SZ) or an integer (REG_DWORD, REG_QWORD). */
  datatype RegValue = Sz(s: string) | Dword(n: uint64)

  /** A `registry.Key`: a handle to an opened key, or the zero handle a failed
      `OpenKey` leaves behind. */
  datatype Key = Opened(root: RootKey, path: string) | ZeroKey

  /** The registry: the keys whose opening fails, and the outcome of reading
      each value that is present (a value absent from `values` does not exist). */
  datatype Store = Store(
    openFailures: map<(RootKey, string, nat), Error>,
    values: map<(RootKey, string, string), Result<RegValue>>)

  /** `registry.OpenKey(root, path, access)`. */
  function OpenKey(st: Store, root: RootKey, path: string, access: nat): (r: Result<Key>)
    ensures r.Ok? <==> (root, path, access) !in st.openFailures
    ensures r.Ok? ==> r.value == Opened(root, path)
    ensures r.Err? ==> r.error == st.openFailures[(root, path, access)]
  {
    if (root, path, access) in st.openFailures then Err(st.openFailures[(root, path, access)])
    else Ok(Opened(root, path))
  }

  /** What reading a value through `k` yields before its type is looked at. */
  function Lookup(st: Store, k: Key, name: string): Result<RegValue> {
    match k
    case ZeroKey => Err(Errno(ERROR_INVALID_HANDLE))
    case Opened(root, path) =>
      if (root, path, name) in st.values then st.values[(root, path, name)]
      else Err(Errno(ERROR_FILE_NOT_FOUND))
  }

  /** `k.GetStringValue(name)`: the stored string, or an error when the value
      is missing, unreadable or not a string. */
  function GetStringValue(st: Store, k: Key, name: string): (r: Result<string>)
    ensures r.Ok? <==> Lookup(st, k, name).Ok? && Lookup(st, k, name).value.Sz?
    ensures r.Ok? ==> r.value == Lookup(st, k, name).value.s
  {
    match Lookup(st, k, name)
    case Err(e) => Err(e)
    case Ok(Sz(s)) => Ok(s)
    case Ok(Dword(_)) => Err(ErrUnexpectedType)
  }

  /** `k.GetIntegerValue(name)`: the stored integer, or an error when the value
      is missing, unreadable or not an integer. */
  function GetIntegerValue(st: Store, k: Key, name: string): (r: Result<uint64>)
    ensures r.Ok? <==> Lookup(st, k, name).Ok? && Lookup(st, k, name).value.Dword?
    ensures r.Ok? ==> r.value == Lookup(st, k, name).value.n
  {
    match Lookup(st, k, name)
    case Err(e) => Err(e)
    case Ok(Dword(n)) => Ok(n)
    case Ok(Sz(_)) => Err(ErrUnexpectedType)
  }

  /** The string stored under `root\path` as `name`, if there is one. */
  function StoredString(st: Store, root: RootKey, path: string, name: string): Option<string> {
    if (root, path, name) in st.values && st.values[(root, path, name)].Ok?
      && st.values[(root, path, name)].value.Sz?
    then Some(st.values[(root, path, name)].value.s)
    else None
  }

  /** A string read through an opened key succeeds exactly when a string is
      stored under that name, and yields it. */
  lemma StringReadIsStored(st: Store, root: RootKey, path: string, name: string)
    ensures var r := GetStringValue(st, Opened(root, path), name);
      && (r.Ok? <==> StoredString(st, root, path, name).Some?)
      && (r.Ok? ==> StoredString(st, root, path, name) == Some(r.value))
  {
  }
}
