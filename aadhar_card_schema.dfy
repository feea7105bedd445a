/**
 * The proof query for the AadharCardSchema credential: a fixed record of the
 * iden3 zero-knowledge query language around a caller-supplied
 * credentialSubject (vcHelpers/AadharCardSchema.js).
 */
module VcHelpers {

  /** An attribute constraint: query-language operator ("$eq", "$lt", ...) to its operand. */
  type Predicate = map<string, string>

  /** The credentialSubject of a query: attribute name to the constraint it must meet. */
  type CredentialSubject = map<string, Predicate>

  /** The `query` part of a proof query; the source's `type` field is `credentialType` here. */
  datatype Query = Query(
    allowedIssuers: seq<string>,
    credentialType: string,
    context: string,
    credentialSubject: CredentialSubject)

  /** One element of an authorization request's scope. */
  datatype ProofQuery = ProofQuery(id: int, circuitId: string, query: Query)

  const AnyIssuer := "*"
  const SigCircuit := "credentialAtomicQuerySigV2"
  const SchemaType := "AadharCardSchema"
  const SchemaContext := "https://schema.dock.io/AadharCardSchema-V1700697041276.json-ld"

  /** A query trusts `issuer` when it lists it or lists the wildcard. */
  predicate TrustsIssuer(q: Query, issuer: string)
  {
    AnyIssuer in q.allowedIssuers || issuer in q.allowedIssuers
  }

  /** The credential subject demands that `attribute` equals `value`. */
  predicate RequiresEqual(cs: CredentialSubject, attribute: string, value: string)
  {
    attribute in cs && "$eq" in cs[attribute] && cs[attribute]["$eq"] == value
  }

  /**
   * The AadharCardSchema proof query: query id 1, signature circuit, any issuer,
   * the fixed schema type and JSON-LD context, and the credentialSubject as given.
   */
  function AadharCardSchema(credentialSubject: CredentialSubject): (q: ProofQuery)
    ensures q.id == 1
    ensures q.circuitId == "credentialAtomicQuerySigV2"
    ensures q.query.allowedIssuers == ["*"]
    ensures forall issuer :: TrustsIssuer(q.query, issuer)
    ensures q.query.credentialType == "AadharCardSchema"
    ensures q.query.context == "https://schema.dock.io/AadharCardSchema-V1700697041276.json-ld"
    ensures q.query.credentialSubject == credentialSubject
  {
    ProofQuery(1, SigCircuit, Query([AnyIssuer], SchemaType, SchemaContext, credentialSubject))
  }
}
