/** The connector's configuration check (cmd/baton-box/config.go). */
module Config {
  import opened Wrappers

  datatype Config = Config(clientId: string, clientSecret: string, enterpriseId: string)

  const MissingClientId := "box client id is missing"
  const MissingClientSecret := "box client secret is missing"
  const MissingEnterpriseId := "enterprise id is missing"

  /** The fields are checked in declaration order and the first empty one is
      reported; `None` is Go's nil error. */
  function ValidateConfig(c: Config): (err: Option<string>)
    ensures err.None? <==> c.clientId != "" && c.clientSecret != "" && c.enterpriseId != ""
    ensures c.clientId == "" ==> err == Some(MissingClientId)
    ensures err == Some(MissingClientSecret) <==> c.clientId != "" && c.clientSecret == ""
    ensures err == Some(MissingEnterpriseId) <==> c.clientId != "" && c.clientSecret != "" && c.enterpriseId == ""
  {
    if c.clientId == "" then Some(MissingClientId)
    else if c.clientSecret == "" then Some(MissingClientSecret)
    else if c.enterpriseId == "" then Some(MissingEnterpriseId)
    else None
  }
}
