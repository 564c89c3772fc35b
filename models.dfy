/**
 Record shapes of the cloud environment: virtual machines carrying tags and
 firewall rules that let a source tag reach a destination tag, plus the
 result and error kinds the two query front ends produce.
 */
module Models {

  datatype VirtualMachine = VirtualMachine(vmId: string, name: string, tags: seq<string>)

  /** A permission edge at tag level: VMs tagged `sourceTag` may reach VMs tagged `destTag`. */
  datatype FirewallRule = FirewallRule(fwId: string, sourceTag: string, destTag: string)

  datatype CloudEnvironment = CloudEnvironment(vms: seq<VirtualMachine>, fwRules: seq<FirewallRule>)

  datatype Option<+T> = None | Some(value: T) {
    function GetOr(default: T): T {
      match this
      case Some(v) => v
      case None => default
    }
  }

  /** The two ways an unknown VM id is reported: the analyzer's ValueError and the HTTP handler's 404. */
  datatype LookupError =
    | ValueError(message: string)
    | HttpException(statusCode: int, detail: string)

  datatype Result<+T> = Success(value: T) | Failure(error: LookupError)

  const NotFoundMessage: string := "VM not found"
}
