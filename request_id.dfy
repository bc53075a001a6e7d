/** The request-id generator of plugins/request-id.js (and its twin
    `generateRequestId` in index.js): a process-wide counter rendered as a
    10-character zero-padded base-36 suffix after the host name; the process
    exits with code 13 once the counter reaches 36^10 - 1. */
module RequestId {

  import opened Values
  import opened Base36
  import opened Http

  /** `maxRequestId`. */
  const MaxRequestId: nat := 3656158440062975

  /** The outcome of one call: an id, `process.exit(code)`, or a TypeError
      raised before the exit is reached. */
  datatype Generated = Id(id: string) | Exit(code: int) | RaisedTypeError

  /** The id issued for counter value `n`. */
  function IdFor(hostname: string, n: nat): (r: string)
    ensures |r| == |hostname| + Width
    ensures r[..|hostname|] == hostname && AllDigits(r[|hostname|..])
  {
    hostname + Suffix(n)
  }

  /** The ceiling is the largest number with ten base-36 digits. */
  lemma MaxIsLargestTenDigits()
    ensures MaxRequestId == Pow36(Width) - 1
  {
    assert Pow36(2) == 1296;
    assert Pow36(4) == 1679616;
    assert Pow36(8) == 2821109907456;
  }

  /** The suffix of every id issued below the ceiling reads back as the
      counter: ten digits are enough, nothing is cut off. */
  lemma IdDecodes(hostname: string, n: nat)
    requires n <= MaxRequestId
    ensures FromBase36(IdFor(hostname, n)[|hostname|..]) == n
  {
    MaxIsLargestTenDigits();
    assert IdFor(hostname, n)[|hostname|..] == Suffix(n);
    SuffixDecodes(n);
  }

  /** Ids issued for different counter values are different. */
  lemma IdsDistinct(hostname: string, m: nat, n: nat)
    requires m <= MaxRequestId && n <= MaxRequestId && m != n
    ensures IdFor(hostname, m) != IdFor(hostname, n)
  {
    IdDecodes(hostname, m);
    IdDecodes(hostname, n);
  }

  /** The counter behind `generate_request_id` (or `generateRequestId`). */
  class IdCounter {
    const hostname: string
    /** `requestId`: how many ids have been generated. */
    var issued: nat

    predicate Valid()
      reads this
    {
      issued <= MaxRequestId
    }

    constructor (hostname: string)
      ensures this.hostname == hostname && issued == 0 && Valid()
    {
      this.hostname := hostname;
      issued := 0;
    }

    /** The counter check and `++requestId` without the header check. */
    method Next() returns (r: Generated)
      requires Valid()
      modifies this
      ensures Valid()
      ensures old(issued) >= MaxRequestId ==> r == Exit(13) && issued == old(issued)
      ensures old(issued) < MaxRequestId ==> issued == old(issued) + 1 && r == Id(IdFor(hostname, issued))
    {
      if issued >= MaxRequestId {
        return Exit(13);
      }
      issued := issued + 1;
      r := Id(hostname + Suffix(issued));
    }

    /** `k` calls in a row, as the formatting test makes them; stops at the
        first exit. */
    method NextMany(k: nat) returns (ids: seq<string>, exited: bool)
      requires Valid()
      modifies this
      ensures Valid()
      ensures exited <==> old(issued) + k > MaxRequestId
      ensures issued == if exited then MaxRequestId else old(issued) + k
      ensures |ids| == issued - old(issued)
      ensures forall i :: 0 <= i < |ids| ==> ids[i] == IdFor(hostname, old(issued) + i + 1)
    {
      ids := [];
      exited := false;
      var j := 0;
      while j < k
        invariant 0 <= j <= k && Valid()
        invariant issued == old(issued) + j
        invariant |ids| == j
        invariant forall i :: 0 <= i < j ==> ids[i] == IdFor(hostname, old(issued) + i + 1)
      {
        var g := Next();
        if g.Exit? {
          exited := true;
          return;
        }
        ids := ids + [g.id];
        j := j + 1;
      }
    }
  }

  /** `generate_request_id(req)`: a truthy `x-request-id` header is returned
      as it is and the counter is left alone; otherwise the counter is used. */
  method GenerateRequestId(counter: IdCounter, headers: map<string, string>) returns (r: Generated)
    requires counter.Valid()
    modifies counter
    ensures counter.Valid()
    ensures "x-request-id" in headers && headers["x-request-id"] != "" ==>
      r == Id(headers["x-request-id"]) && counter.issued == old(counter.issued)
    ensures !("x-request-id" in headers && headers["x-request-id"] != "") ==>
      if old(counter.issued) >= MaxRequestId then r == Exit(13) && counter.issued == old(counter.issued)
      else counter.issued == old(counter.issued) + 1 && r == Id(IdFor(counter.hostname, counter.issued))
  {
    if "x-request-id" in headers && headers["x-request-id"] != "" {
      return Id(headers["x-request-id"]);
    }
    r := counter.Next();
  }

  /** Two ids a counter generated at different calls differ. */
  lemma GeneratedIdsDistinct(hostname: string, before: nat, k: nat, ids: seq<string>, i: nat, j: nat)
    requires before + k <= MaxRequestId && |ids| == k
    requires forall t :: 0 <= t < |ids| ==> ids[t] == IdFor(hostname, before + t + 1)
    requires i < j < k
    ensures ids[i] != ids[j]
  {
    IdsDistinct(hostname, before + i + 1, before + j + 1);
  }

  /** The expected outputs of the formatting test for a fresh counter on host
      `testing-bob`: the 1st, 100th, 101st, 200th, 201st and 300th ids. */
  lemma FormattingVectors()
    ensures IdFor("testing-bob", 1) == "testing-bob0000000001"
    ensures IdFor("testing-bob", 100) == "testing-bob000000002s"
    ensures IdFor("testing-bob", 101) == "testing-bob000000002t"
    ensures IdFor("testing-bob", 200) == "testing-bob000000005k"
    ensures IdFor("testing-bob", 201) == "testing-bob000000005l"
    ensures IdFor("testing-bob", 300) == "testing-bob000000008c"
  {
    SuffixTwoDigits(100);
    SuffixTwoDigits(101);
    SuffixTwoDigits(200);
    SuffixTwoDigits(201);
    SuffixTwoDigits(300);
  }

  /** A counter value with two base-36 digits is padded with eight zeros. */
  lemma SuffixTwoDigits(n: nat)
    requires 36 <= n < 1296
    ensures Suffix(n) == "00000000" + [Digit(n / 36), Digit(n % 36)]
  {
    var z := Zeros(Width) + ToBase36(n);
    assert ToBase36(n) == [Digit(n / 36), Digit(n % 36)];
    assert z[2..] == "00000000" + [Digit(n / 36), Digit(n % 36)];
  }

  /** The onResponse hook `setHeader`: sets `x-request-id` to the request's id. */
  method SetHeader(request: Request, reply: Reply)
    modifies reply
    ensures reply.headers == old(reply.headers)["x-request-id" := request.id]
    ensures reply.statusCode == old(reply.statusCode) && reply.payload == old(reply.payload)
    ensures reply.helpers == old(reply.helpers)
  {
    reply.Header("x-request-id", request.id);
  }

  /** The plugin registers exactly one hook, `setHeader` on onResponse. */
  method Register(server: Server)
    modifies server
    ensures server.hooks == old(server.hooks) + [Hook(OnResponse, SetRequestIdHeader)]
    ensures server.requestDecorators == old(server.requestDecorators)
    ensures server.replyDecorators == old(server.replyDecorators) && server.routes == old(server.routes)
  {
    server.AddHook(OnResponse, SetRequestIdHeader);
  }
}
