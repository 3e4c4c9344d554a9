/** Which encoding the opaque payloads of a deployment use. */
module Languages {

  /** The wire enum `DeploymentLanguage`. */
  datatype DeploymentLanguage = Python | Java

  /** `_needs_pickle`, from the Python client's point of view: pickle when a
      Python client deploys Python replicas, or when it deploys Java replicas
      across languages (cross-language pickling); otherwise the payload is
      raw bytes or text. */
  function NeedsPickle(language: DeploymentLanguage, isCrossLanguage: bool): (r: bool)
    ensures r <==> (language.Python? != isCrossLanguage)
  {
    if language == Python && !isCrossLanguage then
      true
    else if language == Java && isCrossLanguage then
      true
    else
      false
  }

  lemma NeedsPickleTruthTable()
    ensures NeedsPickle(Python, false)
    ensures NeedsPickle(Java, true)
    ensures !NeedsPickle(Python, true)
    ensures !NeedsPickle(Java, false)
  {
  }
}
