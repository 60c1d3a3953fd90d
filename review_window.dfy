/** The review window of the migration web app: the user enters a pull
    request URL, submits it to the review endpoint and watches the streamed
    review text accumulate. The component's four pieces of state are the
    fields of a class; the endpoint's answer is a parameter, with its body
    given as the sequence of already-decoded text chunks the reader yields. */
module PullRequestReviewWindow {
  import opened JsSemantics

  const EmptyUrlError := "Please enter a valid GitHub Pull Request URL"
  const StatusErrorPrefix := "An error occurred: "
  const EmptyBodyError := "Response body is empty"
  const GenericReviewError := "An error occurred during review"
  const ReviewLabel := "Review"
  const ReviewingLabel := "Reviewing..."

  /** A thrown value: an `Error` with its message, or anything else. */
  datatype Thrown = ErrorInstance(message: string) | NonErrorValue

  /** How the reader's `while (true)` loop ends: `done`, or a rejected read. */
  datatype StreamEnd = Finished | ReadFailed(thrown: Thrown)

  /** What the `fetch` to the review endpoint yields. */
  datatype EndpointReply =
    | FetchRejected(thrown: Thrown)
    | NotOk(statusText: string)
    | NoBody
    | Body(chunks: seq<string>, end: StreamEnd)

  /** The message the catch block shows for a thrown value. */
  function MessageOf(t: Thrown): (m: string)
    ensures t.ErrorInstance? ==> m == t.message
    ensures t.NonErrorValue? ==> m == GenericReviewError
  {
    match t
    case ErrorInstance(m) => m
    case NonErrorValue => GenericReviewError
  }

  /** The chunks joined in arrival order. */
  function Concat(chunks: seq<string>): string
  {
    if chunks == [] then "" else chunks[0] + Concat(chunks[1..])
  }

  /** Appending one chunk to the accumulated text is the same as joining the
      longer chunk sequence: this is what the read loop relies on. */
  lemma {:induction false} ConcatAppend(chunks: seq<string>, chunk: string)
    ensures Concat(chunks + [chunk]) == Concat(chunks) + chunk
  {
    if chunks != [] {
      assert (chunks + [chunk])[1..] == chunks[1..] + [chunk];
      ConcatAppend(chunks[1..], chunk);
    }
  }

  /** Joining is compatible with splitting the stream anywhere: nothing is
      added, dropped or reordered at chunk boundaries. */
  lemma {:induction false} ConcatSplit(a: seq<string>, b: seq<string>)
    ensures Concat(a + b) == Concat(a) + Concat(b)
  {
    if a == [] {
      assert a + b == b;
    } else {
      assert (a + b)[0] == a[0] && (a + b)[1..] == a[1..] + b;
      ConcatSplit(a[1..], b);
    }
  }

  /** What the form shows for a given state. */
  datatype Controls = Controls(
    inputDisabled: bool, submitDisabled: bool, submitLabel: string,
    resetShown: bool, resetDisabled: bool, errorShown: bool, spinnerShown: bool)

  /** The `error` and `reviewResult` that a submission past validation ends
      with, starting from the cleared state. */
  function SubmitOutcome(reply: EndpointReply): (o: (Option<string>, string))
    ensures o.0.None? <==> reply.Body? && reply.end.Finished?
    ensures o.1 == if reply.Body? then Concat(reply.chunks) else ""
    ensures reply.FetchRejected? ==> o.0 == Some(MessageOf(reply.thrown))
    ensures reply.NotOk? ==> o.0 == Some(StatusErrorPrefix + reply.statusText)
    ensures reply.NoBody? ==> o.0 == Some(EmptyBodyError)
    ensures reply.Body? && reply.end.ReadFailed? ==> o.0 == Some(MessageOf(reply.end.thrown))
  {
    match reply
    case FetchRejected(t) => (Some(MessageOf(t)), "")
    case NotOk(statusText) => (Some(StatusErrorPrefix + statusText), "")
    case NoBody => (Some(EmptyBodyError), "")
    case Body(chunks, Finished) => (None, Concat(chunks))
    case Body(chunks, ReadFailed(t)) => (Some(MessageOf(t)), Concat(chunks))
  }

  class ReviewWindow {
    var prUrl: string
    var isLoading: bool
    var error: Option<string>
    var reviewResult: string

    constructor ()
      ensures prUrl == "" && !isLoading && error == None && reviewResult == ""
    {
      prUrl, isLoading, error, reviewResult := "", false, None, "";
    }

    /** The input's `onChange`. */
    method ChangeUrl(value: string)
      modifies this
      ensures prUrl == value
      ensures isLoading == old(isLoading) && error == old(error) && reviewResult == old(reviewResult)
    {
      prUrl := value;
    }

    /** The synchronous part of `handleSubmit`, up to the `fetch`: a URL that
        is blank after trimming only sets the error; otherwise the window
        enters the loading state and the untrimmed URL is sent. */
    method StartSubmit() returns (request: Option<string>)
      modifies this
      ensures prUrl == old(prUrl)
      ensures if IsBlank(old(prUrl))
        then request == None && error == Some(EmptyUrlError)
             && isLoading == old(isLoading) && reviewResult == old(reviewResult)
        else request == Some(old(prUrl)) && isLoading && error == None && reviewResult == ""
    {
      if IsBlank(prUrl) {
        RejectBlankUrl();
        request := None;
      } else {
        BeginRequest();
        request := Some(prUrl);
      }
    }

    /** `setError(...)` for a blank URL; nothing else changes. */
    method RejectBlankUrl()
      modifies this
      ensures error == Some(EmptyUrlError)
      ensures prUrl == old(prUrl) && isLoading == old(isLoading) && reviewResult == old(reviewResult)
    {
      error := Some(EmptyUrlError);
    }

    /** The three updates made before the request is sent. */
    method BeginRequest()
      modifies this
      ensures isLoading && error == None && reviewResult == "" && prUrl == old(prUrl)
    {
      isLoading := true;
      error := None;
      reviewResult := "";
    }

    /** The rest of `handleSubmit`: the response checks, the read loop that
        appends every chunk, the catch that reports the error without
        clearing streamed text, and the `finally` that ends loading. */
    method FinishSubmit(reply: EndpointReply)
      modifies this
      ensures prUrl == old(prUrl) && !isLoading
      ensures match reply
        case FetchRejected(t) => error == Some(MessageOf(t)) && reviewResult == old(reviewResult)
        case NotOk(statusText) => error == Some(StatusErrorPrefix + statusText) && reviewResult == old(reviewResult)
        case NoBody => error == Some(EmptyBodyError) && reviewResult == old(reviewResult)
        case Body(chunks, Finished) => error == old(error) && reviewResult == old(reviewResult) + Concat(chunks)
        case Body(chunks, ReadFailed(t)) => error == Some(MessageOf(t)) && reviewResult == old(reviewResult) + Concat(chunks)
    {
      match reply {
        case FetchRejected(t) =>
          error := Some(MessageOf(t));
        case NotOk(statusText) =>
          error := Some(MessageOf(ErrorInstance(StatusErrorPrefix + statusText)));
        case NoBody =>
          error := Some(MessageOf(ErrorInstance(EmptyBodyError)));
        case Body(chunks, end) =>
          var i := 0;
          while i < |chunks|
            invariant 0 <= i <= |chunks|
            invariant reviewResult == old(reviewResult) + Concat(chunks[..i])
            invariant prUrl == old(prUrl) && error == old(error)
          {
            ConcatAppend(chunks[..i], chunks[i]);
            assert chunks[..i + 1] == chunks[..i] + [chunks[i]];
            reviewResult := reviewResult + chunks[i];
            i := i + 1;
          }
          assert chunks[..i] == chunks;
          if end.ReadFailed? {
            error := Some(MessageOf(end.thrown));
          }
      }
      isLoading := false;
    }

    /** `handleSubmit` as a whole: validation, then the request, then the
        outcome; loading has ended whenever the request was made. */
    method HandleSubmit(reply: EndpointReply) returns (request: Option<string>)
      modifies this
      ensures prUrl == old(prUrl)
      ensures AllWhitespace(old(prUrl)) ==>
        && request == None && error == Some(EmptyUrlError)
        && isLoading == old(isLoading) && reviewResult == old(reviewResult)
      ensures !AllWhitespace(old(prUrl)) ==>
        request == Some(old(prUrl)) && !isLoading && (error, reviewResult) == SubmitOutcome(reply)
    {
      request := StartSubmit();
      if request.Some? {
        FinishSubmit(reply);
        if reply.Body? {
          assert "" + Concat(reply.chunks) == Concat(reply.chunks);
        }
      }
    }

    /** `handleReset`: clears the URL, the result and the error; loading is
        left as it is. */
    method HandleReset()
      modifies this
      ensures prUrl == "" && reviewResult == "" && error == None && isLoading == old(isLoading)
    {
      prUrl := "";
      reviewResult := "";
      error := None;
    }

    /** The form's enable and visibility rules. */
    function View(): (c: Controls)
      reads this
      ensures c.submitDisabled <==> isLoading || AllWhitespace(prUrl)
      ensures c.submitLabel == (if isLoading then ReviewingLabel else ReviewLabel)
      ensures c.resetShown <==> reviewResult != ""
      ensures c.inputDisabled == isLoading && c.resetDisabled == isLoading
      ensures c.errorShown <==> error.Some? && error.value != ""
      ensures c.spinnerShown <==> reviewResult == "" && isLoading
    {
      Controls(
        inputDisabled := isLoading,
        submitDisabled := isLoading || IsBlank(prUrl),
        submitLabel := if isLoading then ReviewingLabel else ReviewLabel,
        resetShown := reviewResult != "",
        resetDisabled := isLoading,
        errorShown := !IsFalsy(error),
        spinnerShown := reviewResult == "" && isLoading)
    }
  }
}
