// The application's error codes and the HTTP status each one carries.
module AppErrors {

  datatype ErrorCode =
    | NotError
    | InternalCommonError
    | InternalSqlError
    | ApiNotAuthorized
    | ApiUnknownApiFormat
    | ApiUnknownType
    | HostsAmbiguousResolver
    | HostsAbnormalIp
    | HostsIpmiTldMismatch
    | HostsIpmiCidrMismatch
    | PortsAbnormalMac
    | JobsJobNotFound
    | RsviewGenericError
    | RsviewAuthError
    | RsviewAuthTestFail
    | RsviewParseError
    | RsviewUnknownApi
    | RsviewUnknownVlan
    | RsviewUnknownZone
    | RsviewUnknownPort
    | RsviewUnknownJun
    | RsviewUnknownLldp
    | RsviewLldpMismatch
    | RsviewMacNotFound
    | HostsNotFound

  function HttpStatus(code: ErrorCode): nat {
    match code
    case NotError => 200
    case ApiNotAuthorized => 401
    case ApiUnknownApiFormat => 400
    case ApiUnknownType => 400
    case HostsAmbiguousResolver => 400
    case HostsAbnormalIp => 400
    case HostsIpmiTldMismatch => 400
    case HostsIpmiCidrMismatch => 400
    case PortsAbnormalMac => 400
    case JobsJobNotFound => 404
    case RsviewMacNotFound => 404
    case HostsNotFound => 404
    case _ => 500
  }
}
