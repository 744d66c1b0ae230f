/**
  What one stage of the pass writer emits: the top-level members it
  completes and, when it throws, the tokens it wrote before the exception.
  The writer does not buffer, so a failed stage leaves those tokens behind
  and no later stage runs.
 */
module Emissions {
  import opened Wrappers
  import opened Errors
  import opened Json

  /** An exception, and the tokens the failing stage had written before it was raised. */
  datatype Failure = Failure(partial: seq<Token>, error: Error)

  datatype Emission = Emission(members: seq<Member>, failure: Option<Failure>)
  {
    /** Run `this`, then `next` unless `this` threw. */
    function Then(next: Emission): Emission {
      if failure.Some? then this else Emission(members + next.members, next.failure)
    }
  }

  /** A stage that completes the given members. */
  function Complete(members: seq<Member>): Emission {
    Emission(members, None)
  }

  /** A stage that throws `error` after writing `partial`. */
  function Failed(partial: seq<Token>, error: Error): Emission {
    Emission([], Some(Failure(partial, error)))
  }

  /** The tokens a stage appends to the writer. */
  function Tokens(e: Emission): seq<Token> {
    EncodeMembers(e.members) + (if e.failure.Some? then e.failure.value.partial else [])
  }

  /** The exception a stage raises, if any. */
  function ErrorOf(e: Emission): Option<Error> {
    if e.failure.Some? then Some(e.failure.value.error) else None
  }

  /** The writer went from `before` to `after` by running `e`, which raised `err`. */
  predicate Wrote(before: seq<Token>, after: seq<Token>, e: Emission, err: Option<Error>) {
    after == before + Tokens(e) && err == ErrorOf(e)
  }

  /** The whole document: the opening brace, the stages, and the closing brace unless a stage threw. */
  function Written(e: Emission): seq<Token> {
    [StartObj] + Tokens(e) + (if e.failure.None? then [EndObj] else [])
  }

  // ---------------------------------------------------------------------
  // Composition

  /** Running two stages one after the other appends what each appends, and stops at the first exception. */
  lemma ThenWrote(t0: seq<Token>, t1: seq<Token>, t2: seq<Token>, a: Emission, b: Emission, err: Option<Error>)
    requires Wrote(t0, t1, a, None)
    requires Wrote(t1, t2, b, err)
    ensures Wrote(t0, t2, a.Then(b), err)
  {
    var partial := if b.failure.Some? then b.failure.value.partial else [];
    EncodeMembersAppend(a.members, b.members);
    Regroup(t0, EncodeMembers(a.members), EncodeMembers(b.members), partial);
  }

  lemma Regroup(t0: seq<Token>, x: seq<Token>, y: seq<Token>, partial: seq<Token>)
    ensures t0 + (x + []) + (y + partial) == t0 + (x + y + partial)
  {
  }

  /** A stage that completes writes the encoding of its members. */
  lemma CompleteWrote(t0: seq<Token>, members: seq<Member>)
    ensures Wrote(t0, t0 + EncodeMembers(members), Complete(members), None)
  {
  }

  /** A stage that throws appends exactly the tokens it wrote before the exception. */
  lemma FailedWrote(t0: seq<Token>, partial: seq<Token>, error: Error)
    ensures Wrote(t0, t0 + partial, Failed(partial, error), Some(error))
  {
    assert EncodeMembers([]) + partial == partial;
  }

  /** Stages run in sequence: grouping does not matter. */
  lemma ThenAssociative(a: Emission, b: Emission, c: Emission)
    ensures a.Then(b).Then(c) == a.Then(b.Then(c))
  {
    if a.failure.None? && b.failure.None? {
      assert (a.members + b.members) + c.members == a.members + (b.members + c.members);
    }
  }

  /** Once a stage has thrown, later stages add nothing. */
  lemma ThenStops(a: Emission, b: Emission)
    requires a.failure.Some?
    ensures a.Then(b) == a
  {
  }

  /** After completed stages, a stage that throws leaves its partial tokens last and the document open. */
  lemma FailedStageWritten(ms: seq<Member>, partial: seq<Token>, error: Error, next: Emission)
    ensures Written(Complete(ms).Then(Failed(partial, error)).Then(next)) == [StartObj] + EncodeMembers(ms) + partial
  {
    assert ms + [] == ms;
  }

  /** The document is the opening brace, what the stages wrote, and the closing brace only when none threw. */
  lemma WrittenTokens(start: seq<Token>, e: Emission)
    ensures e.failure.None? ==> start + [StartObj] + Tokens(e) + [EndObj] == start + Written(e)
    ensures e.failure.Some? ==> start + [StartObj] + Tokens(e) == start + Written(e)
  {
  }

  /** A completed document is exactly one JSON object holding the members, in order. */
  lemma WrittenComplete(e: Emission)
    requires e.failure.None?
    ensures Written(e) == Encode(JObject(e.members))
    ensures Decode(Written(e)) == Some(JObject(e.members))
  {
    DecodeEncode(JObject(e.members));
  }

  /** A document whose writing threw never ends with a closing brace of its own. */
  lemma WrittenFailed(e: Emission)
    requires e.failure.Some?
    ensures Written(e) == [StartObj] + EncodeMembers(e.members) + e.failure.value.partial
  {
  }

  /** Appending one more stage's members to those already written. */
  lemma AppendMembers(base: seq<Token>, done: seq<Member>, more: seq<Member>)
    ensures base + EncodeMembers(done) + EncodeMembers(more) == base + EncodeMembers(done + more)
  {
    EncodeMembersAppend(done, more);
  }
}
