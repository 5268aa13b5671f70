/**
 * The shared data model of the app_dirs library: the identity of an
 * application (its name and author), the five categories of application
 * data, and the library's error type with its rendering and cause.
 */
module Common {

  import opened Wrappers

  // ---------------------------------------------------------------------
  // App information
  // ---------------------------------------------------------------------

  /** Fixed information about an application, meant for a `const` instance. */
  datatype StaticAppInfo = StaticAppInfo(name: string, author: string) {

    /** The application's name, exactly as stored. */
    function Name(): string { name }

    /** The application's author, exactly as stored. */
    function Author(): string { author }
  }

  /** Information about an application known only at run time. */
  datatype OwningAppInfo = OwningAppInfo(name: string, author: string) {

    /** The application's name, exactly as stored. */
    function Name(): string { name }

    /** The application's author, exactly as stored. */
    function Author(): string { author }
  }

  /** The accessors hand back the stored strings with no sanitisation. */
  lemma StaticAccessors(name: string, author: string)
    ensures StaticAppInfo(name, author).Name() == name
    ensures StaticAppInfo(name, author).Author() == author
  {
  }

  lemma OwningAccessors(name: string, author: string)
    ensures OwningAppInfo(name, author).Name() == name
    ensures OwningAppInfo(name, author).Author() == author
  {
  }

  /** Derived equality: two values are equal iff both fields are equal. */
  lemma StaticEquality(x: StaticAppInfo, y: StaticAppInfo)
    ensures x == y <==> (x.Name() == y.Name() && x.Author() == y.Author())
  {
  }

  lemma OwningEquality(x: OwningAppInfo, y: OwningAppInfo)
    ensures x == y <==> (x.Name() == y.Name() && x.Author() == y.Author())
  {
  }

  // ---------------------------------------------------------------------
  // App data types
  // ---------------------------------------------------------------------

  /** The kind of application data a caller wants to store. */
  datatype AppDataType =
    | UserConfig    // user-specific configuration
    | UserData      // user-specific arbitrary data
    | UserCache     // user-specific cache
    | SharedData    // system-wide arbitrary data
    | SharedConfig  // system-wide configuration

  /** True for the data types that are not specific to one user. */
  function IsShared(t: AppDataType): (r: bool)
    ensures r <==> (t == SharedData || t == SharedConfig)
  {
    match t
    case SharedData | SharedConfig => true
    case _ => false
  }

  /** The five declared variants. */
  const Variants: set<AppDataType> :=
    {UserConfig, UserData, UserCache, SharedData, SharedConfig}

  /** The enumeration is closed: every value is one of five distinct variants. */
  lemma VariantsExhaustive()
    ensures forall t: AppDataType :: t in Variants
    ensures |Variants| == 5
  {
    forall t: AppDataType ensures t in Variants {
      match t
      case UserConfig =>
      case UserData =>
      case UserCache =>
      case SharedData =>
      case SharedConfig =>
    }
  }

  /** Of the five variants exactly two are shared and three are user-scoped. */
  lemma SharedVariants()
    ensures (set t | t in Variants && IsShared(t)) == {SharedData, SharedConfig}
    ensures (set t | t in Variants && !IsShared(t)) == {UserConfig, UserData, UserCache}
    ensures |set t | t in Variants && IsShared(t)| == 2
    ensures |set t | t in Variants && !IsShared(t)| == 3
  {
  }

  /** The classification of each variant, one literal case at a time. */
  lemma IsSharedCases()
    ensures !IsShared(UserConfig) && !IsShared(UserData) && !IsShared(UserCache)
    ensures IsShared(SharedData) && IsShared(SharedConfig)
  {
  }

  // ---------------------------------------------------------------------
  // Errors
  // ---------------------------------------------------------------------

  /**
   * A foreign I/O error. Only what this module uses of it is kept: the text
   * its own `Display` writes and the text its own `description` returns.
   */
  datatype IoError = IoError(message: string, description: string)

  const ErrNotSupported: string := "App data directories not supported"
  const ErrInvalidAppInfo: string := "Invalid app name or author"

  /** Why a directory lookup failed: one of three kinds of failure. */
  datatype AppDirsError =
    | Io(error: IoError)  // wraps the I/O failure that stopped the lookup
    | NotSupported        // the system does not support app directories
    | InvalidAppInfo      // the app name or author was invalid

  /** The user-facing rendering (`Display`). */
  function Display(err: AppDirsError): (r: string)
    ensures err.Io? ==> r == err.error.message
    ensures err == NotSupported ==> r == ErrNotSupported
    ensures err == InvalidAppInfo ==> r == ErrInvalidAppInfo
  {
    match err
    case Io(e) => e.message
    case NotSupported => ErrNotSupported
    case InvalidAppInfo => ErrInvalidAppInfo
  }

  /** The legacy `description` string; it spells out its own literals. */
  function Description(err: AppDirsError): (r: string)
    ensures err.Io? ==> r == err.error.description
    ensures !err.Io? ==> r == Display(err)
  {
    match err
    case Io(e) => e.description
    case NotSupported => "App data directories not supported"
    case InvalidAppInfo => "Invalid app name or author"
  }

  /** The underlying error, if any. */
  function Cause(err: AppDirsError): (r: Option<IoError>)
    ensures r.Some? <==> err.Io?
    ensures err.Io? ==> r == Some(err.error)
  {
    match err
    case Io(e) => Some(e)
    case NotSupported => None
    case InvalidAppInfo => None
  }

  /** The lift of an I/O error into an `AppDirsError` (`From`). */
  function From(e: IoError): (r: AppDirsError)
    ensures Cause(r) == Some(e)
    ensures Display(r) == e.message
    ensures Description(r) == e.description
  {
    Io(e)
  }

  /** An error has cause `e` exactly when it is the lift of `e`. */
  lemma CauseIffLift(err: AppDirsError, e: IoError)
    ensures Cause(err) == Some(e) <==> err == From(e)
  {
  }

  /** The two payload-free variants render to different messages. */
  lemma DisplayDistinguishesPayloadFree()
    ensures Display(NotSupported) != Display(InvalidAppInfo)
  {
  }
}
