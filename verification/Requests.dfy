// An API request: the errors gathered while it is handled, and the response they lead to.
module Requests {
  import opened Common
  import opened AppErrors

  function Max(a: nat, b: nat): nat {
    if a > b then a else b
  }

  /** The highest status among the errors, and zero when there is none. */
  function WorstStatus(errors: seq<ErrorCode>): nat {
    if errors == [] then 0 else Max(WorstStatus(errors[..|errors| - 1]), HttpStatus(errors[|errors| - 1]))
  }

  lemma {:induction false} WorstStatusIsMaximum(errors: seq<ErrorCode>)
    ensures forall e <- errors :: HttpStatus(e) <= WorstStatus(errors)
    ensures errors != [] ==> exists e <- errors :: HttpStatus(e) == WorstStatus(errors)
  {
    if errors != [] {
      var init, last := errors[..|errors| - 1], errors[|errors| - 1];
      WorstStatusIsMaximum(init);
      assert errors == init + [last];
      if WorstStatus(init) > HttpStatus(last) {
        var e :| e in init && HttpStatus(e) == WorstStatus(init);
        assert e in errors;
      } else {
        assert last in errors;
      }
    }
  }

  /** Errors are saved in order up to the first that cannot be; that one adds one error of its own. */
  ghost predicate AllSaved(n: nat, saves: nat -> bool) {
    forall k: nat :: k < n ==> saves(k)
  }

  ghost function AfterSaving(errors: seq<ErrorCode>, saves: nat -> bool): seq<ErrorCode> {
    if AllSaved(|errors|, saves) then errors else errors + [InternalSqlError]
  }

  datatype Response<+T> = Response(data: Option<T>, errors: seq<ErrorCode>, status: nat)

  /** The response as the maximum of what was asked for, what the request had come to, and
      what its errors call for. */
  ghost function Respond<T>(data: Option<T>, status: nat, requestStatus: nat, errors: seq<ErrorCode>): Response<T> {
    var worst := Max(requestStatus, WorstStatus(errors));
    Response(if worst > status then None else data, errors, Max(status, worst))
  }

  class HttpRequest {
    var status: nat
    var errors: seq<ErrorCode>

    /** A request that was saved starts at 200. */
    constructor ()
      ensures status == 200 && errors == []
    {
      status, errors := 200, [];
    }

    method AppendAppError(e: ErrorCode)
      modifies this`errors
      ensures errors == old(errors) + [e]
    {
      errors := errors + [e];
    }

    method SaveErrors(saves: nat -> bool)
      modifies this`errors
      ensures errors == AfterSaving(old(errors), saves)
      ensures (forall k :: 0 <= k < |old(errors)| ==> saves(k)) ==> errors == old(errors)
      ensures (exists k :: 0 <= k < |old(errors)| && !saves(k)) ==> errors == old(errors) + [InternalSqlError]
    {
      var given := errors;
      for k := 0 to |given|
        invariant errors == given && AllSaved(k, saves)
      {
        if saves(k) {
          continue;
        }
        AppendAppError(InternalSqlError);
        break;
      }
    }

    method RespondApiErrors() returns (shown: seq<ErrorCode>)
      modifies this`status
      ensures shown == errors
      ensures status == Max(old(status), WorstStatus(errors))
    {
      shown := [];
      for k := 0 to |errors|
        invariant shown == errors[..k]
        invariant status == Max(old(status), WorstStatus(errors[..k]))
      {
        assert errors[..k + 1][..k] == errors[..k];
        shown := shown + [errors[k]];
        if HttpStatus(errors[k]) > status {
          status := HttpStatus(errors[k]);
        }
      }
      assert errors[..|errors|] == errors;
    }

    method RespondJson<T>(data: Option<T>, requested: nat, saves: nat -> bool) returns (r: Response<T>)
      modifies this
      ensures errors == AfterSaving(old(errors), saves)
      ensures r == Respond(data, requested, old(status), errors)
      ensures status == r.status
    {
      var out := requested;
      r := Response(data, [], 0);
      SaveErrors(saves);
      var shown := RespondApiErrors();
      r := r.(errors := shown);
      if status > out {
        out := status;
        r := r.(data := None);
      }
      status := out;
      r := r.(status := out);
    }
  }

  lemma RealErrorsAreAtLeast400(e: ErrorCode)
    requires e != NotError
    ensures HttpStatus(e) >= 400
  {
  }

  /** The response lists all errors, its status is the greatest of all statuses in play, and its data
      is dropped exactly when that of the request or of an error exceeds the one asked for. */
  lemma RespondExactly<T>(data: Option<T>, requested: nat, requestStatus: nat, errors: seq<ErrorCode>)
    ensures var r := Respond(data, requested, requestStatus, errors);
            && r.errors == errors
            && r.status >= requested && r.status >= requestStatus && (forall e <- errors :: r.status >= HttpStatus(e))
            && (r.status == requested || r.status == requestStatus || exists e <- errors :: r.status == HttpStatus(e))
            && r.data == if requestStatus > requested || exists e <- errors :: HttpStatus(e) > requested then None else data
  {
    WorstStatusIsMaximum(errors);
  }

  /** Saving adds an error exactly when some save fails, and then a single one. */
  lemma SavingAddsOneError(errors: seq<ErrorCode>, saves: nat -> bool)
    ensures (forall k :: 0 <= k < |errors| ==> saves(k)) ==> AfterSaving(errors, saves) == errors
    ensures (exists k :: 0 <= k < |errors| && !saves(k)) ==> AfterSaving(errors, saves) == errors + [InternalSqlError]
  {
  }

  /** A response that asks for 200 or 201 keeps its data exactly when nothing went wrong, and
      then has the status it asked for; otherwise its status is the worst of its errors. */
  lemma DataOnlyWithoutErrors<T>(data: T, requested: nat, given: seq<ErrorCode>, saves: nat -> bool)
    requires requested == 200 || requested == 201
    requires NotError !in given
    ensures var errors := AfterSaving(given, saves);
            var r := Respond(Some(data), requested, 200, errors);
            && (r.data == Some(data) <==> given == [])
            && (given == [] ==> r.status == requested && r.errors == [])
            && (given != [] ==> r.data == None && r.status == WorstStatus(errors) >= 400 && given <= r.errors)
  {
    var errors := AfterSaving(given, saves);
    WorstStatusIsMaximum(errors);
    if given != [] {
      assert given[0] in errors;
      RealErrorsAreAtLeast400(given[0]);
    }
  }
}
