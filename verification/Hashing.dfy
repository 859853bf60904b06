/** The protocol's two hashes, `keccak256_hex` and `sha256_prefixed`, over unknown hash functions.
    Nothing is assumed about them: the theorems that depend on collision resistance name
    the colliding inputs instead. */
module Hashing {
  import opened Text

  datatype Hashes = Hashes(keccak: bytes -> bytes, sha256: bytes -> bytes) {
    function Keccak256Hex(data: bytes): string {
      "0x" + Hex(keccak(data))
    }

    function Sha256Prefixed(data: bytes): string {
      "sha256:" + Hex(sha256(data))
    }

    lemma KeccakHexInjective(a: bytes, b: bytes)
      requires Keccak256Hex(a) == Keccak256Hex(b)
      ensures keccak(a) == keccak(b)
    {
      assert Keccak256Hex(a)[2..] == Hex(keccak(a)) && Keccak256Hex(b)[2..] == Hex(keccak(b));
      HexInjective(keccak(a), keccak(b));
    }

    lemma KeccakHexIsLower(data: bytes)
      ensures Lower(Keccak256Hex(data)) == Keccak256Hex(data)
    {
      HexIsLower(keccak(data));
      LowerConcat("0x", Hex(keccak(data)));
      assert Lower("0x") == "0x";
    }
  }
}
