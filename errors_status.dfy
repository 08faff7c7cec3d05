/**
 * The application error type and its classification (errors/status.go).
 *
 * A Go error value is modelled by what errors.As can see of it: either an
 * application *Error, or some other error with its Error() text and the error
 * its Unwrap returns. A nil error is None.
 */
module Errors {
  import opened Wrappers

  /** Status is a Go string type; a status may hold any text. */
  type Status = string

  const StatusConflict: Status := "conflict"
  const StatusInternal: Status := "internal"
  const StatusInvalidArgument: Status := "invalid"
  const StatusNotFound: Status := "not_found"
  const StatusNotImplemented: Status := "not_implemented"
  const StatusUnauthorized: Status := "unauthorized"
  const StatusFailed: Status := "failed"
  const StatusPreconditionFailed: Status := "precondition_failed"
  const StatusAborted: Status := "aborted"

  /** A Go value of some dynamic type that the error code only carries along. */
  datatype Any = Any(text: string)

  /** The application error: its source error, status, message and (possibly nil) details map. */
  datatype AppError = AppError(err: Option<GoError>, status: Status, message: string, details: Option<map<string, Any>>)

  /** A non-nil Go error. */
  datatype GoError =
    | App(e: AppError)
    | Plain(text: string, wrapped: Option<GoError>)

  /** What the error's Unwrap method returns. */
  function Unwrap(g: GoError): (r: Option<GoError>)
    ensures g.App? ==> r == g.e.err
    ensures r.Some? ==> r.value < g
  {
    match g
    case App(e) => e.err
    case Plain(_, w) => w
  }

  /** The wrap chain errors.As walks: the error, then what it unwraps to, and so on. */
  function Chain(g: GoError): (c: seq<GoError>)
    ensures |c| > 0 && c[0] == g
  {
    match Unwrap(g)
    case None => [g]
    case Some(n) => [g] + Chain(n)
  }

  /** `i` is the first application error of the chain. */
  predicate FirstAppAt(c: seq<GoError>, i: int) {
    0 <= i < |c| && c[i].App? && forall j :: 0 <= j < i ==> !c[j].App?
  }

  predicate HasApp(c: seq<GoError>) {
    exists i :: 0 <= i < |c| && c[i].App?
  }

  /** The Error() text of an error. */
  function ErrorText(g: GoError): (r: string)
    ensures g.App? ==> r == g.e.message
  {
    match g
    case App(e) => e.message
    case Plain(t, _) => t
  }

  /** AsError: the first application error down the wrap chain, if any. */
  function AsError(err: Option<GoError>): (r: Option<AppError>)
    ensures err.None? ==> r.None?
    ensures err.Some? ==> (r.Some? <==> HasApp(Chain(err.value)))
    ensures r.Some? ==> exists i :: FirstAppAt(Chain(err.value), i) && Chain(err.value)[i] == App(r.value)
  {
    match err
    case None => None
    case Some(App(e)) => Some(e)
    case Some(Plain(t, w)) =>
      var r := AsError(w);
      PlainChain(t, w);
      r
  }

  /** The chain of a non-application error is that error followed by the chain of what it wraps. */
  lemma PlainChain(t: string, w: Option<GoError>)
    ensures w.None? ==> Chain(Plain(t, w)) == [Plain(t, w)] && !HasApp(Chain(Plain(t, w)))
    ensures w.Some? ==> Chain(Plain(t, w)) == [Plain(t, w)] + Chain(w.value)
    ensures w.Some? ==> (HasApp(Chain(Plain(t, w))) <==> HasApp(Chain(w.value)))
    ensures w.Some? ==> forall i :: FirstAppAt(Chain(w.value), i) ==> FirstAppAt(Chain(Plain(t, w)), i + 1)
  {
    if w.Some? {
      var c := Chain(Plain(t, w));
      var d := Chain(w.value);
      assert forall i :: 0 <= i < |d| ==> c[i + 1] == d[i];
      if HasApp(c) {
        var i :| 0 <= i < |c| && c[i].App?;
        assert i > 0 && d[i - 1].App?;
      }
    }
  }

  /** AsError returns exactly the application error at the chain's first application index. */
  lemma AsErrorIsFirstApp(err: Option<GoError>)
    requires err.Some?
    ensures forall i :: FirstAppAt(Chain(err.value), i) ==> AsError(err) == Some(Chain(err.value)[i].e)
  {
    forall i | FirstAppAt(Chain(err.value), i)
      ensures AsError(err) == Some(Chain(err.value)[i].e)
    {
      var r := AsError(err);
      var k :| FirstAppAt(Chain(err.value), k) && Chain(err.value)[k] == App(r.value);
      FirstAppUnique(Chain(err.value), i, k);
    }
  }

  /** The first application error of a chain is unique. */
  lemma FirstAppUnique(c: seq<GoError>, i: int, j: int)
    requires FirstAppAt(c, i) && FirstAppAt(c, j)
    ensures i == j
  {
  }

  /** AsStatus: "" for nil, the status of the first application error, otherwise internal. */
  function AsStatus(err: Option<GoError>): (r: Status)
    ensures err.None? ==> r == ""
    ensures err.Some? && !HasApp(Chain(err.value)) ==> r == StatusInternal
    ensures forall i :: err.Some? && FirstAppAt(Chain(err.value), i) ==> r == Chain(err.value)[i].e.status
  {
    if err.None? then ""
    else
      var e := AsError(err);
      AsErrorIsFirstApp(err);
      if e.Some? then e.value.status
      else StatusInternal
  }

  /** Message: "" for nil, the message of the first application error, otherwise the error's own text. */
  function Message(err: Option<GoError>): (r: string)
    ensures err.None? ==> r == ""
    ensures err.Some? && !HasApp(Chain(err.value)) ==> r == ErrorText(err.value)
    ensures forall i :: err.Some? && FirstAppAt(Chain(err.value), i) ==> r == Chain(err.value)[i].e.message
  {
    if err.None? then ""
    else
      var e := AsError(err);
      AsErrorIsFirstApp(err);
      if e.Some? then e.value.message
      else ErrorText(err.value)
  }

  /** Details: nil for nil, the details of the first application error, otherwise nil. */
  function Details(err: Option<GoError>): (r: Option<map<string, Any>>)
    ensures err.None? ==> r.None?
    ensures err.Some? && !HasApp(Chain(err.value)) ==> r.None?
    ensures forall i :: err.Some? && FirstAppAt(Chain(err.value), i) ==> r == Chain(err.value)[i].e.details
  {
    if err.None? then None
    else
      var e := AsError(err);
      AsErrorIsFirstApp(err);
      if e.Some? then e.value.details
      else None
  }

  /** The first application error down the chain of `err` carries status `s`. */
  ghost predicate FirstAppHasStatus(err: Option<GoError>, s: Status) {
    err.Some? && exists i :: FirstAppAt(Chain(err.value), i) && Chain(err.value)[i].e.status == s
  }

  /** A chain with an application error has a first one. */
  lemma FirstAppExists(err: Option<GoError>)
    requires err.Some? && HasApp(Chain(err.value))
    ensures exists i :: FirstAppAt(Chain(err.value), i)
  {
    var r := AsError(err);
  }

  /** The status of a non-nil error: its first application error's, or internal when there is none. */
  lemma AsStatusOfChain(err: Option<GoError>, s: Status)
    requires s != ""
    ensures AsStatus(err) == s <==>
      FirstAppHasStatus(err, s) || (s == StatusInternal && err.Some? && !HasApp(Chain(err.value)))
  {
    if err.Some? && HasApp(Chain(err.value)) {
      FirstAppExists(err);
    }
  }

  function IsNotFound(err: Option<GoError>): (r: bool)
    ensures r <==> FirstAppHasStatus(err, StatusNotFound)
  {
    AsStatusOfChain(err, StatusNotFound);
    AsStatus(err) == StatusNotFound
  }

  function IsConflict(err: Option<GoError>): (r: bool)
    ensures r <==> FirstAppHasStatus(err, StatusConflict)
  {
    AsStatusOfChain(err, StatusConflict);
    AsStatus(err) == StatusConflict
  }

  function IsInvalidArgument(err: Option<GoError>): (r: bool)
    ensures r <==> FirstAppHasStatus(err, StatusInvalidArgument)
  {
    AsStatusOfChain(err, StatusInvalidArgument);
    AsStatus(err) == StatusInvalidArgument
  }

  /** Internal also covers every non-nil error with no application error in its chain. */
  function IsInternal(err: Option<GoError>): (r: bool)
    ensures r <==> FirstAppHasStatus(err, StatusInternal) || (err.Some? && !HasApp(Chain(err.value)))
  {
    AsStatusOfChain(err, StatusInternal);
    AsStatus(err) == StatusInternal
  }

  function IsPreconditionFailed(err: Option<GoError>): (r: bool)
    ensures r <==> FirstAppHasStatus(err, StatusPreconditionFailed)
  {
    AsStatusOfChain(err, StatusPreconditionFailed);
    AsStatus(err) == StatusPreconditionFailed
  }

  function IsAborted(err: Option<GoError>): (r: bool)
    ensures r <==> FirstAppHasStatus(err, StatusAborted)
  {
    AsStatusOfChain(err, StatusAborted);
    AsStatus(err) == StatusAborted
  }

  /** Message of an application error is its Error() text. */
  lemma AppMessageIsErrorText(e: AppError)
    ensures Message(Some(App(e))) == ErrorText(App(e))
  {
  }

  /** Wrapping an error in a non-application error (fmt.Errorf with %w) keeps its classification. */
  lemma WrappingKeepsClassification(text: string, inner: GoError)
    ensures AsStatus(Some(Plain(text, Some(inner)))) == AsStatus(Some(inner))
    ensures Details(Some(Plain(text, Some(inner)))) == Details(Some(inner))
    ensures HasApp(Chain(inner)) ==> Message(Some(Plain(text, Some(inner)))) == Message(Some(inner))
  {
  }

  /** At most one of the Is* predicates holds of an error, and nil satisfies none. */
  lemma ClassificationIsExclusive(err: Option<GoError>)
    ensures err.None? ==> !IsNotFound(err) && !IsConflict(err) && !IsInvalidArgument(err) && !IsInternal(err)
                          && !IsPreconditionFailed(err) && !IsAborted(err)
    ensures IsNotFound(err) ==> !IsConflict(err) && !IsInvalidArgument(err) && !IsInternal(err)
                                && !IsPreconditionFailed(err) && !IsAborted(err)
    ensures IsConflict(err) ==> !IsInvalidArgument(err) && !IsInternal(err) && !IsPreconditionFailed(err) && !IsAborted(err)
    ensures IsInvalidArgument(err) ==> !IsInternal(err) && !IsPreconditionFailed(err) && !IsAborted(err)
    ensures IsInternal(err) ==> !IsPreconditionFailed(err) && !IsAborted(err)
    ensures IsPreconditionFailed(err) ==> !IsAborted(err)
  {
  }

  // ---- Format ----

  /** A key/value detail. */
  datatype Arg = Arg(key: string, value: Any)

  /** A variadic argument of Format, by dynamic type. */
  datatype FormatArg =
    | NilArg
    | ErrorArg(err: GoError)
    | DetailArg(arg: Arg)
    | DetailArgs(args: seq<Arg>)
    | ValueArg(value: Any)

  /** The last error argument, which becomes the new error's source error. */
  function LastError(args: seq<FormatArg>): (r: Option<GoError>)
    ensures r.None? <==> forall i :: 0 <= i < |args| ==> !args[i].ErrorArg?
    ensures r.Some? ==> exists i :: 0 <= i < |args| && args[i] == ErrorArg(r.value)
                                    && forall j :: i < j < |args| ==> !args[j].ErrorArg?
  {
    if args == [] then None
    else
      var last := args[|args| - 1];
      var init := args[..|args| - 1];
      assert forall i :: 0 <= i < |init| ==> init[i] == args[i];
      if last.ErrorArg? then Some(last.err) else LastError(init)
  }

  /** The details collected from Arg and []Arg arguments, in argument order. */
  function DetailList(args: seq<FormatArg>): seq<Arg>
  {
    if args == [] then []
    else
      var last := args[|args| - 1];
      DetailList(args[..|args| - 1]) + DetailsOf(last)
  }

  /** The details one argument contributes. */
  function DetailsOf(a: FormatArg): seq<Arg> {
    match a
    case DetailArg(d) => [d]
    case DetailArgs(ds) => ds
    case _ => []
  }

  /** The arguments left for the format string: neither nil, nor errors, nor details. */
  function ValueArgs(args: seq<FormatArg>): (r: seq<Any>)
    ensures |r| <= |args|
    ensures forall v :: v in r ==> ValueArg(v) in args
  {
    if args == [] then []
    else
      var last := args[|args| - 1];
      var init := args[..|args| - 1];
      var rest := ValueArgs(init);
      assert forall a :: a in init ==> a in args;
      rest + ValuesOf(last)
  }

  /** The format value one argument contributes. */
  function ValuesOf(a: FormatArg): seq<Any> {
    if a.ValueArg? then [a.value] else []
  }

  /** One more argument, as the loop of Format consumes it. */
  lemma FormatStep(args: seq<FormatArg>, i: nat)
    requires i < |args|
    ensures LastError(args[..i + 1]) == if args[i].ErrorArg? then Some(args[i].err) else LastError(args[..i])
    ensures DetailList(args[..i + 1]) == DetailList(args[..i]) + DetailsOf(args[i])
    ensures ValueArgs(args[..i + 1]) == ValueArgs(args[..i]) + ValuesOf(args[i])
  {
    assert args[..i + 1][..i] == args[..i];
  }

  /** The details map: later entries overwrite earlier ones with the same key. */
  function DetailMap(ds: seq<Arg>): (m: map<string, Any>)
    ensures forall k :: k in m <==> exists i :: 0 <= i < |ds| && ds[i].key == k
  {
    if ds == [] then map[]
    else
      var last := ds[|ds| - 1];
      var init := ds[..|ds| - 1];
      var m := DetailMap(init);
      assert forall i :: 0 <= i < |init| ==> init[i] == ds[i];
      m[last.key := last.value]
  }

  lemma DetailMapStep(ds: seq<Arg>, j: nat)
    requires j < |ds|
    ensures DetailMap(ds[..j + 1]) == DetailMap(ds[..j])[ds[j].key := ds[j].value]
  {
    assert ds[..j + 1][..j] == ds[..j];
  }

  /** `i` is the last position of the details list holding key `k`. */
  predicate LastWithKey(ds: seq<Arg>, k: string, i: int) {
    0 <= i < |ds| && ds[i].key == k && forall j :: i < j < |ds| ==> ds[j].key != k
  }

  /** The details map holds, for each key, the value of the last detail with that key. */
  lemma {:induction false} DetailMapLastWins(ds: seq<Arg>, k: string, i: int)
    requires LastWithKey(ds, k, i)
    ensures k in DetailMap(ds) && DetailMap(ds)[k] == ds[i].value
  {
    var init := ds[..|ds| - 1];
    if i < |ds| - 1 {
      assert LastWithKey(init, k, i);
      DetailMapLastWins(init, k, i);
    }
  }

  /** The Details field Format produces: nil when no detail was given. */
  function FormatDetails(args: seq<FormatArg>): Option<map<string, Any>> {
    var ds := DetailList(args);
    if |ds| > 0 then Some(DetailMap(ds)) else None
  }

  /** The argument loop of Format: sorts the arguments, skipping nils. */
  method SortArgs(args: seq<FormatArg>) returns (err: Option<GoError>, details: seq<Arg>, newArgs: seq<Any>)
    ensures err == LastError(args)
    ensures details == DetailList(args)
    ensures newArgs == ValueArgs(args)
  {
    err, details, newArgs := None, [], [];
    var i := 0;
    while i < |args|
      invariant 0 <= i <= |args|
      invariant err == LastError(args[..i])
      invariant details == DetailList(args[..i])
      invariant newArgs == ValueArgs(args[..i])
    {
      FormatStep(args, i);
      match args[i] {
        case NilArg =>
        case ErrorArg(obj) => err := Some(obj);
        case DetailArg(obj) => details := details + [obj];
        case DetailArgs(obj) => details := details + obj;
        case ValueArg(obj) => newArgs := newArgs + [obj];
      }
      i := i + 1;
    }
    assert args[..i] == args;
  }

  /** The details loop of Format: later entries overwrite earlier ones. */
  method BuildDetailMap(details: seq<Arg>) returns (m: map<string, Any>)
    ensures m == DetailMap(details)
  {
    m := map[];
    var j := 0;
    while j < |details|
      invariant 0 <= j <= |details|
      invariant m == DetailMap(details[..j])
    {
      DetailMapStep(details, j);
      m := m[details[j].key := details[j].value];
      j := j + 1;
    }
    assert details[..j] == details;
  }

  /**
   * Format: sorts the arguments into the source error (the last error
   * argument), the details and the values passed on to the message
   * formatting, skipping nils. `sprintf` stands for fmt.Sprintf.
   */
  method Format(code: Status, format: string, args: seq<FormatArg>, sprintf: (string, seq<Any>) -> string)
    returns (e: AppError)
    ensures e.status == code
    ensures e.err == LastError(args)
    ensures e.message == sprintf(format, ValueArgs(args))
    ensures e.details == FormatDetails(args)
  {
    var err, details, newArgs := SortArgs(args);
    var msg := sprintf(format, newArgs);
    e := AppError(err, code, msg, None);
    if |details| > 0 {
      var m := BuildDetailMap(details);
      e := e.(details := Some(m));
    }
  }

  /** Each helper is Format with its own status; the matching Is* holds of what it returns. */
  method NotFound(format: string, args: seq<FormatArg>, sprintf: (string, seq<Any>) -> string) returns (e: AppError)
    ensures e.status == StatusNotFound && IsNotFound(Some(App(e)))
    ensures e.err == LastError(args) && e.message == sprintf(format, ValueArgs(args)) && e.details == FormatDetails(args)
  {
    e := Format(StatusNotFound, format, args, sprintf);
  }

  method InvalidArgument(format: string, args: seq<FormatArg>, sprintf: (string, seq<Any>) -> string) returns (e: AppError)
    ensures e.status == StatusInvalidArgument && IsInvalidArgument(Some(App(e)))
    ensures e.err == LastError(args) && e.message == sprintf(format, ValueArgs(args)) && e.details == FormatDetails(args)
  {
    e := Format(StatusInvalidArgument, format, args, sprintf);
  }

  method Internal(format: string, args: seq<FormatArg>, sprintf: (string, seq<Any>) -> string) returns (e: AppError)
    ensures e.status == StatusInternal && IsInternal(Some(App(e)))
    ensures e.err == LastError(args) && e.message == sprintf(format, ValueArgs(args)) && e.details == FormatDetails(args)
  {
    e := Format(StatusInternal, format, args, sprintf);
  }

  method Conflict(format: string, args: seq<FormatArg>, sprintf: (string, seq<Any>) -> string) returns (e: AppError)
    ensures e.status == StatusConflict && IsConflict(Some(App(e)))
    ensures e.err == LastError(args) && e.message == sprintf(format, ValueArgs(args)) && e.details == FormatDetails(args)
  {
    e := Format(StatusConflict, format, args, sprintf);
  }

  method PreconditionFailed(format: string, args: seq<FormatArg>, sprintf: (string, seq<Any>) -> string) returns (e: AppError)
    ensures e.status == StatusPreconditionFailed && IsPreconditionFailed(Some(App(e)))
    ensures e.err == LastError(args) && e.message == sprintf(format, ValueArgs(args)) && e.details == FormatDetails(args)
  {
    e := Format(StatusPreconditionFailed, format, args, sprintf);
  }

  method Failed(format: string, args: seq<FormatArg>, sprintf: (string, seq<Any>) -> string) returns (e: AppError)
    ensures e.status == StatusFailed && AsStatus(Some(App(e))) == StatusFailed
    ensures e.err == LastError(args) && e.message == sprintf(format, ValueArgs(args)) && e.details == FormatDetails(args)
  {
    e := Format(StatusFailed, format, args, sprintf);
  }

  method Aborted(format: string, args: seq<FormatArg>, sprintf: (string, seq<Any>) -> string) returns (e: AppError)
    ensures e.status == StatusAborted && IsAborted(Some(App(e)))
    ensures e.err == LastError(args) && e.message == sprintf(format, ValueArgs(args)) && e.details == FormatDetails(args)
  {
    e := Format(StatusAborted, format, args, sprintf);
  }

  /** The value arguments split over concatenation, so their order is the arguments' order. */
  lemma {:induction false} ValueArgsConcat(a: seq<FormatArg>, b: seq<FormatArg>)
    ensures ValueArgs(a + b) == ValueArgs(a) + ValueArgs(b)
  {
    if b == [] {
      assert a + b == a;
    } else {
      var b' := b[..|b| - 1];
      assert (a + b)[..|a + b| - 1] == a + b';
      ValueArgsConcat(a, b');
    }
  }

  /** One argument alone: together with ValueArgsConcat, ValueArgs is the in-order filter of value arguments. */
  lemma ValueArgsSingle(a: FormatArg)
    ensures ValueArgs([a]) == ValuesOf(a)
  {
    assert [a][..0] == [];
  }

  /** Every value argument reaches the format string. */
  lemma {:induction false} ValueArgsComplete(args: seq<FormatArg>)
    ensures forall i :: 0 <= i < |args| && args[i].ValueArg? ==> args[i].value in ValueArgs(args)
  {
    if args != [] {
      var init := args[..|args| - 1];
      ValueArgsComplete(init);
      assert forall i :: 0 <= i < |init| ==> init[i] == args[i];
    }
  }

  /** DetailList holds exactly the details the arguments carry, and is empty iff none carries any. */
  lemma {:induction false} DetailListContents(args: seq<FormatArg>)
    ensures forall d :: d in DetailList(args) <==> exists i :: 0 <= i < |args| && d in DetailsOf(args[i])
    ensures DetailList(args) == [] <==> forall i :: 0 <= i < |args| ==> DetailsOf(args[i]) == []
  {
    if args != [] {
      var init := args[..|args| - 1];
      DetailListContents(init);
      assert forall i :: 0 <= i < |init| ==> init[i] == args[i];
    }
  }

  lemma {:induction false} DetailListConcat(a: seq<FormatArg>, b: seq<FormatArg>)
    ensures DetailList(a + b) == DetailList(a) + DetailList(b)
  {
    if b == [] {
      assert a + b == a;
    } else {
      var b' := b[..|b| - 1];
      assert (a + b)[..|a + b| - 1] == a + b';
      DetailListConcat(a, b');
    }
  }

  lemma {:induction false} LastErrorConcat(a: seq<FormatArg>, b: seq<FormatArg>)
    ensures LastError(a + b) == if LastError(b).Some? then LastError(b) else LastError(a)
  {
    if b == [] {
      assert a + b == a;
    } else {
      var b' := b[..|b| - 1];
      assert (a + b)[..|a + b| - 1] == a + b';
      LastErrorConcat(a, b');
    }
  }

  lemma NilArgContributesNothing()
    ensures LastError([NilArg]) == None && DetailList([NilArg]) == [] && ValueArgs([NilArg]) == []
  {
    assert [NilArg][..0] == [];
  }

  /** A nil argument changes nothing Format produces. */
  lemma NilArgIsSkipped(a: seq<FormatArg>, b: seq<FormatArg>)
    ensures LastError(a + [NilArg] + b) == LastError(a + b)
    ensures FormatDetails(a + [NilArg] + b) == FormatDetails(a + b)
    ensures ValueArgs(a + [NilArg] + b) == ValueArgs(a + b)
  {
    NilLastError(a, b);
    NilDetails(a, b);
    NilValues(a, b);
  }

  lemma NilLastError(a: seq<FormatArg>, b: seq<FormatArg>)
    ensures LastError(a + [NilArg] + b) == LastError(a + b)
  {
    NilArgContributesNothing();
    LastErrorConcat(a + [NilArg], b);
    LastErrorConcat(a, [NilArg]);
    LastErrorConcat(a, b);
  }

  lemma NilDetails(a: seq<FormatArg>, b: seq<FormatArg>)
    ensures DetailList(a + [NilArg] + b) == DetailList(a + b)
  {
    NilArgContributesNothing();
    DetailListConcat(a + [NilArg], b);
    DetailListConcat(a, [NilArg]);
    DetailListConcat(a, b);
  }

  lemma NilValues(a: seq<FormatArg>, b: seq<FormatArg>)
    ensures ValueArgs(a + [NilArg] + b) == ValueArgs(a + b)
  {
    NilArgContributesNothing();
    ValueArgsConcat(a + [NilArg], b);
    ValueArgsConcat(a, [NilArg]);
    ValueArgsConcat(a, b);
  }
}
