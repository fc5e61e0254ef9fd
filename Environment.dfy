/**
  The connection settings of one Marketo instance (src/Environment.php): the
  OAuth client credentials, the Munchkin account id and the REST endpoint
  derived from it, plus the process-wide slot that `configure` fills and
  `currentEnvironment` reads.
*/
module Environment {

  /** The REST endpoint of a Munchkin account; it ends in a slash. */
  function EndpointFor(munchkinId: string): (url: string)
    ensures url != [] && url[|url| - 1] == '/'
  {
    "https://" + munchkinId + ".mktorest.com/rest/v1/"
  }

  /** Two accounts with different ids have different endpoints. */
  lemma {:induction false} EndpointForInjective(a: string, b: string)
    requires EndpointFor(a) == EndpointFor(b)
    ensures a == b
  {
    var pre := "https://";
    var post := ".mktorest.com/rest/v1/";
    var ea := EndpointFor(a);
    assert |a| == |b|;
    forall k | 0 <= k < |a|
      ensures a[k] == b[k]
    {
      assert ea[|pre| + k] == a[k];
      assert ea[|pre| + k] == b[k];
    }
  }

  class Environment {
    const clientId: string
    const clientSecret: string
    const munchkinId: string
    /** Derived from the Munchkin id when the object is built. */
    const endPoint: string := EndpointFor(munchkinId)

    constructor (clientId: string, clientSecret: string, munchkinId: string)
      ensures this.clientId == clientId
      ensures this.clientSecret == clientSecret
      ensures this.munchkinId == munchkinId
      ensures endPoint == EndpointFor(munchkinId)
    {
      this.clientId := clientId;
      this.clientSecret := clientSecret;
      this.munchkinId := munchkinId;
    }

    function GetEndpoint(): string {
      endPoint
    }

    function GetMunchkinId(): string {
      munchkinId
    }

    function GetClientId(): string {
      clientId
    }

    function GetClientSecret(): string {
      clientSecret
    }
  }

  /** The static `Environment::$myself` slot: empty until the first `configure`. */
  class EnvironmentSlot {
    var myself: Environment?

    constructor ()
      ensures CurrentEnvironment() == null
    {
      myself := null;
    }

    function CurrentEnvironment(): Environment?
      reads this
    {
      myself
    }

    /** Replaces whatever the slot held by a fresh environment built from the arguments. */
    method Configure(clientId: string, clientSecret: string, munchkinId: string)
      modifies this
      ensures CurrentEnvironment() != null && fresh(CurrentEnvironment())
      ensures CurrentEnvironment().GetClientId() == clientId
      ensures CurrentEnvironment().GetClientSecret() == clientSecret
      ensures CurrentEnvironment().GetMunchkinId() == munchkinId
      ensures CurrentEnvironment().GetEndpoint() == "https://" + munchkinId + ".mktorest.com/rest/v1/"
    {
      myself := new Environment(clientId, clientSecret, munchkinId);
    }
  }
}
