/** `ProtocolParser`: decentralised-storage URIs become gateway HTTPS URLs. */
module Protocol {
  import opened Js

  const IpfsScheme: string := "ipfs://"
  const ArweaveScheme: string := "ar://"
  const IpfsGateway: string := "https://alchemy.mypinata.cloud/ipfs/"
  const ArweaveGateway: string := "https://arweave.net/"

  /** `ipfs://<rest>` becomes the Pinata gateway URL, `ar://<rest>` the Arweave gateway
      URL; any other URL (including a shorter one) is returned unchanged. */
  function ProtocolParser(url: string): (r: string)
    ensures StartsWith(url, IpfsScheme) ==> r == IpfsGateway + url[|IpfsScheme|..]
    ensures !StartsWith(url, IpfsScheme) && StartsWith(url, ArweaveScheme) ==>
              r == ArweaveGateway + url[|ArweaveScheme|..]
    ensures !StartsWith(url, IpfsScheme) && !StartsWith(url, ArweaveScheme) ==> r == url
  {
    SliceIsPrefix(url, IpfsScheme);
    SliceIsPrefix(url, ArweaveScheme);
    if Slice(url, 7) == IpfsScheme then IpfsGateway + url[7..]
    else if Slice(url, 5) == ArweaveScheme then ArweaveGateway + url[5..]
    else url
  }

  /** Rewriting an `ipfs://` or `ar://` URI gives an `https://` URL. */
  lemma RewrittenIsHttps(url: string)
    requires StartsWith(url, IpfsScheme) || StartsWith(url, ArweaveScheme)
    ensures StartsWith(ProtocolParser(url), "https://")
  {
    var r := ProtocolParser(url);
    if StartsWith(url, IpfsScheme) {
      StartsWithConcat(IpfsGateway, url[7..], "https://");
    } else {
      StartsWithConcat(ArweaveGateway, url[5..], "https://");
    }
  }

  /** No output of the parser still carries one of the two schemes. */
  lemma NoSchemeLeft(url: string)
    ensures !StartsWith(ProtocolParser(url), IpfsScheme)
    ensures !StartsWith(ProtocolParser(url), ArweaveScheme)
  {
    var r := ProtocolParser(url);
    if StartsWith(url, IpfsScheme) || StartsWith(url, ArweaveScheme) {
      RewrittenIsHttps(url);
      assert r[0] == "https://"[0] == 'h';
      assert r[..5][0] != ArweaveScheme[0];
      assert r[..7][0] != IpfsScheme[0];
    }
  }

  /** Parsing twice is parsing once. */
  lemma ProtocolParserIdempotent(url: string)
    ensures ProtocolParser(ProtocolParser(url)) == ProtocolParser(url)
  {
    NoSchemeLeft(url);
  }

  /** The content identifier after the scheme is carried over verbatim, so two
      distinct `ipfs://` URIs never reach the same gateway URL. */
  lemma IpfsRewriteInjective(a: string, b: string)
    requires StartsWith(a, IpfsScheme) && StartsWith(b, IpfsScheme) && a != b
    ensures ProtocolParser(a) != ProtocolParser(b)
  {
    assert a == IpfsScheme + a[7..] && b == IpfsScheme + b[7..];
    var ra, rb := ProtocolParser(a), ProtocolParser(b);
    assert ra[|IpfsGateway|..] == a[7..];
    assert rb[|IpfsGateway|..] == b[7..];
  }

  lemma ExampleIpfs()
    ensures ProtocolParser("ipfs://QmHash/1.png") == "https://alchemy.mypinata.cloud/ipfs/QmHash/1.png"
  {
    assert StartsWith("ipfs://QmHash/1.png", IpfsScheme);
  }

  lemma ExampleArweave()
    ensures ProtocolParser("ar://Tx9") == "https://arweave.net/Tx9"
  {
    assert "ar://Tx9"[..7][0] != IpfsScheme[0];
    assert StartsWith("ar://Tx9", ArweaveScheme);
  }

  /** A scheme-prefix-only string is too short for `ipfs://` and is returned unchanged. */
  lemma ExampleShortUrl()
    ensures ProtocolParser("ipfs:") == "ipfs:"
  {
    assert !StartsWith("ipfs:", IpfsScheme);
    assert "ipfs:"[..5][0] != ArweaveScheme[0];
  }
}
