/** The checks on raw messages at the system boundary
  (internal/security/validation.go). */
module Validation {
  import opened Options

  const DEFAULT_MAX_MESSAGE_SIZE := 0x10_0000
  const DEFAULT_MAX_JSON_DEPTH := 32

  datatype ValidationError = MessageTooLarge | TooDeep | InvalidJSON

  /** What the decoder reads next; Bad is its error on malformed input. */
  datatype Token = Open | Close | Other | Bad

  function SizeLimit(limit: int): int { if limit <= 0 then DEFAULT_MAX_MESSAGE_SIZE else limit }

  function DepthLimit(limit: int): int { if limit <= 0 then DEFAULT_MAX_JSON_DEPTH else limit }

  method ValidateMessageSize(size: nat, limit: int) returns (err: Option<ValidationError>)
    ensures err == if size > SizeLimit(limit) then Some(MessageTooLarge) else None
  {
    var max := limit;
    if max <= 0 {
      max := DEFAULT_MAX_MESSAGE_SIZE;
    }
    if size > max {
      return Some(MessageTooLarge);
    }
    return None;
  }

  /** How many brackets are open after these tokens. */
  function Depth(tokens: seq<Token>): int {
    if tokens == [] then 0
    else
      Depth(tokens[..|tokens| - 1])
        + match tokens[|tokens| - 1]
          case Open => 1
          case Close => -1
          case _ => 0
  }

  function DepthAt(tokens: seq<Token>, n: nat): int
    requires n <= |tokens|
  {
    Depth(tokens[..n])
  }

  /** The first token that is refused, and why; none if all are accepted. */
  function DepthVerdict(tokens: seq<Token>, limit: int, i: nat): Option<ValidationError>
    requires i <= |tokens|
    decreases |tokens| - i
  {
    if i == |tokens| then None
    else if tokens[i].Bad? then Some(InvalidJSON)
    else if DepthAt(tokens, i + 1) > limit then Some(TooDeep)
    else DepthVerdict(tokens, limit, i + 1)
  }

  ghost predicate Refused(tokens: seq<Token>, limit: int, i: nat)
    requires i < |tokens|
  {
    tokens[i].Bad? || DepthAt(tokens, i + 1) > limit
  }

  /** Accepted means well-formed and nowhere deeper than the limit; otherwise the
      first refused token decides the error. */
  lemma {:induction false} VerdictIsFirst(tokens: seq<Token>, limit: int, i: nat)
    requires i <= |tokens|
    ensures DepthVerdict(tokens, limit, i).None? <==> forall j | i <= j < |tokens| :: !Refused(tokens, limit, j)
    ensures forall j | i <= j < |tokens| && Refused(tokens, limit, j)
                       && (forall k | i <= k < j :: !Refused(tokens, limit, k)) ::
              DepthVerdict(tokens, limit, i) == Some(if tokens[j].Bad? then InvalidJSON else TooDeep)
    decreases |tokens| - i
  {
    if i < |tokens| && !Refused(tokens, limit, i) {
      VerdictIsFirst(tokens, limit, i + 1);
    }
  }

  lemma DepthStep(tokens: seq<Token>, i: nat)
    requires i < |tokens|
    ensures DepthAt(tokens, i + 1) - DepthAt(tokens, i)
         == match tokens[i]
            case Open => 1
            case Close => -1
            case _ => 0
  {
    assert tokens[..i + 1][..i] == tokens[..i];
  }

  /** The loop looks at the depth only where it grows. */
  method ValidateJSONDepth(tokens: seq<Token>, limit: int) returns (err: Option<ValidationError>)
    ensures err == DepthVerdict(tokens, DepthLimit(limit), 0)
  {
    var max := limit;
    if max <= 0 {
      max := DEFAULT_MAX_JSON_DEPTH;
    }
    var depth := 0;
    for i := 0 to |tokens|
      invariant depth == DepthAt(tokens, i) && depth <= max
      invariant DepthVerdict(tokens, max, i) == DepthVerdict(tokens, max, 0)
    {
      DepthStep(tokens, i);
      match tokens[i]
      case Bad => return Some(InvalidJSON);
      case Open =>
        depth := depth + 1;
        if depth > max {
          return Some(TooDeep);
        }
      case Close => depth := depth - 1;
      case Other =>
    }
    return None;
  }

  /** Both checks, which an empty message skips. */
  function RawVerdict(size: nat, tokens: seq<Token>, maxSize: int): Option<ValidationError> {
    if size == 0 then None
    else if size > SizeLimit(maxSize) then Some(MessageTooLarge)
    else DepthVerdict(tokens, DepthLimit(0), 0)
  }
}
