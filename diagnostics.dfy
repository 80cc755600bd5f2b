/** The host tool's diagnostics (`diag.Diagnostic` of the Terraform plugin
    SDK), reduced to what the provider fills in: a severity and a summary. */
module Diagnostics {

  datatype Severity = Error | Warning

  datatype Diagnostic = Diagnostic(severity: Severity, summary: string)
}
