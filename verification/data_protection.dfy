/** The data-protection collaborator. The provider turns a purpose string
    into a protector; the protector encrypts and decrypts strings under the
    key material that purpose derives. The cryptography itself is not part of
    this model: a provider is a pair of functions `seal` and `unseal`, and
    the properties a real provider has are predicates the lemmas assume. */
module DataProtection {
  import opened Wrappers

  /** The identifier a protector is derived from. */
  type Purpose = string

  /** Why `Unprotect` rejected a ciphertext (malformed, tampered, wrong key). */
  datatype CryptoError = CryptoError(reason: string)

  /** `IDataProtectionProvider`: the encryption and decryption behaviour of
      every protector it can create, as functions of the purpose. */
  datatype Provider = Provider(
    seal: (Purpose, string) -> string,
    unseal: (Purpose, string) -> Result<string, CryptoError>)
  {
    /** `CreateProtector(purpose)`. */
    function CreateProtector(purpose: Purpose): Protector
    {
      Protector(purpose)
    }

    /** A protector decrypts whatever a protector of the same purpose
        encrypted. */
    ghost predicate RoundTrips()
    {
      forall purpose, plaintext :: unseal(purpose, seal(purpose, plaintext)) == Success(plaintext)
    }

    /** A protector rejects ciphertext made under a different purpose. */
    ghost predicate IsolatesPurposes()
    {
      forall sealer, opener, plaintext ::
        sealer != opener ==> unseal(opener, seal(sealer, plaintext)).Failure?
    }
  }

  /** `IDataProtector`: identified by the purpose it was created for. */
  datatype Protector = Protector(purpose: Purpose)
  {
    function Protect(provider: Provider, plaintext: string): string
    {
      provider.seal(purpose, plaintext)
    }

    function Unprotect(provider: Provider, ciphertext: string): Result<string, CryptoError>
    {
      provider.unseal(purpose, ciphertext)
    }
  }
}
