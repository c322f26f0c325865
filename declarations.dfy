/**
 * The concrete declarations of the XendAPI class (XendAPI.py lines 194-200,
 * 278-1015): the validator chain of each class, the attribute, method and
 * function lists, and the handlers the class defines before __init__ runs.
 */
module Declarations {
  import opened Wrappers
  import opened Envelope
  import opened Guards
  import opened Handlers

  /** The `classes` dictionary of __init__, in the order it is written:
      six distinct classes, each with session_required as its outermost
      validator, and every class but Session with one reference guard
      inside it. Network is declared further down but is not listed. */
  function Classes(): (cs: seq<(string, seq<Guard>)>)
    ensures |cs| == 6 && cs[0].0 == "Session"
    ensures forall i :: 0 <= i < |cs| ==> |cs[i].1| > 0 && cs[i].1[|cs[i].1| - 1] == SessionRequired
    ensures cs[0].1 == [SessionRequired]
    ensures forall i :: 1 <= i < |cs| ==> |cs[i].1| == 2 && cs[i].1[0] != SessionRequired
    ensures forall i, j :: 0 <= i < j < |cs| ==> cs[i].0 != cs[j].0
    ensures forall i :: 0 <= i < |cs| ==> cs[i].0 != "Network"
  {
    [ ("Session", [SessionRequired]),
      ("Host", [ValidHost, SessionRequired]),
      ("Host_CPU", [ValidHostCpu, SessionRequired]),
      ("VM", [ValidVm, SessionRequired]),
      ("VBD", [ValidVbd, SessionRequired]),
      ("VIF", [ValidVif, SessionRequired]) ]
  }

  /** VM_attr_ro (lines 457-472), VM_attr_rw (lines 474-500) and VM_methods
      (lines 502-511), in the order written, cut into groups of related
      names. */
  const VmStateAttrs: seq<string> := ["power_state", "resident_on", "memory_actual", "memory_static_max", "memory_static_min"]
  const VmVcpuAttrs: seq<string> := ["VCPUs_number", "VCPUs_utilisation", "VCPUs_features_required", "VCPUs_can_use"]
  const VmDeviceAttrs: seq<string> := ["VIFs", "VBDs", "TPM_instance", "TPM_backend", "PCI_bus", "tools_version"]
  const VmNameAttrs: seq<string> := ["name_label", "name_description", "user_version", "is_a_template"]
  const VmTuningAttrs: seq<string> := ["memory_dynamic_max", "memory_dynamic_min", "VCPUs_policy", "VCPUs_params",
                                       "VCPUs_features_force_on", "VCPUS_features_force_off"]
  const VmActionAttrs: seq<string> := ["actions_after_shutdown", "actions_after_reboot", "actions_after_suspend", "actions_after_crash"]
  const VmPlatformAttrs: seq<string> := ["bios_boot", "platform_std_VGA", "platform_serial", "platform_localtime",
                                         "platform_clock_offset", "platform_enable_audio"]
  const VmBootAttrs: seq<string> := ["builder", "boot_method", "kernel_kernel", "kernel_initrd", "kernel_args",
                                     "grub_cmdline", "other_config"]
  const VmStartMethods: seq<string> := ["clone", "start", "pause", "unpause"]
  const VmStopMethods: seq<string> := ["clean_shutdown", "clean_reboot", "hard_shutdown", "hard_reboot", "suspend", "resume"]

  /** The <Cls>_attr_ro, <Cls>_attr_rw, <Cls>_methods and <Cls>_funcs class
      attributes. Session_funcs is commented out in the class, so it is
      absent here; so are the lists Host_CPU, VBD and VIF do not declare.
      Every list present is non-empty, and the VM lists have the lengths
      written in the class. */
  function ClassAttributes(): (m: map<string, seq<string>>)
    ensures "Session_funcs" !in m && "Session_methods" in m && m["Session_methods"] == ["logout"]
    ensures forall k :: k in m ==> |m[k]| > 0
    ensures "VM_attr_ro" in m && |m["VM_attr_ro"]| == 15
    ensures "VM_attr_rw" in m && |m["VM_attr_rw"]| == 27
    ensures "VM_methods" in m && |m["VM_methods"]| == 10
  {
    map[
      "Session_attr_ro" := ["this_host", "this_user"],
      "Session_methods" := ["logout"],
      "Host_attr_ro" := ["software_version", "resident_VMs", "host_CPUs"],
      "Host_attr_rw" := ["name_label", "name_description"],
      "Host_methods" := ["disable", "enable", "reboot", "shutdown"],
      "Host_funcs" := ["get_by_label"],
      "Host_CPU_attr_ro" := ["host", "number", "features", "utilisation"],
      "Network_attr_ro" := ["VIFs"],
      "Network_attr_rw" := ["name_label", "name_description", "NIC", "VLAN", "default_gateway", "default_netmask"],
      "VM_attr_ro" := VmStateAttrs + VmVcpuAttrs + VmDeviceAttrs,
      "VM_attr_rw" := VmNameAttrs + VmTuningAttrs + VmActionAttrs + VmPlatformAttrs + VmBootAttrs,
      "VM_methods" := VmStartMethods + VmStopMethods,
      "VM_funcs" := ["get_by_label"],
      "VBD_attr_ro" := ["image", "IO_bandwidth_incoming_kbs", "IO_bandwidth_outgoing_kbs"],
      "VBD_attr_rw" := ["VM", "VDI", "device", "mode", "driver"],
      "VIF_attr_ro" := ["network_read_kbs", "network_write_kbs", "IO_bandwidth_incoming_kbs", "IO_bandwidth_outgoing_kbs"],
      "VIF_attr_rw" := ["name", "type", "device", "network", "VM", "MAC", "MTU"]
    ]
  }

  /** The bodies of the handlers the class body defines (lines 301-1015),
      by name, other than session_login_with_password. */
  function DefinedBodies(): map<string, Body>
  {
    map[
      "session_logout" := Logout,
      "session_destroy" := Constant(1, ApiError(Unsupported)),
      "session_get_record" := Opaque("session_get_record", 1),
      "session_to_xml" := Constant(1, ApiTodo()),
      "session_get_this_host" := GetThisHost,
      "session_get_this_user" := GetThisUser,
      "host_get_name_label" := Opaque("host_get_name_label", 2),
      "host_set_name_label" := Opaque("host_set_name_label", 2),
      "host_get_name_description" := Opaque("host_get_name_description", 2),
      "host_set_name_description" := Opaque("host_set_name_description", 2),
      "host_get_software_version" := Opaque("host_get_software_version", 2),
      "host_get_resident_vms" := Opaque("host_get_resident_vms", 2),
      "host_get_host_cpus" := Opaque("host_get_host_cpus", 2),
      "host_destroy" := Constant(2, ApiError(Unsupported)),
      "host_disable" := HostDisable,
      "host_enable" := HostEnable,
      "host_reboot" := HostReboot,
      "host_shutdown" := HostShutdown,
      "host_get_record" := Opaque("host_get_record", 2),
      "host_get_all" := Opaque("host_get_all", 1),
      "host_create" := Constant(2, ApiError(Unsupported)),
      "host_cpu_get_uuid" := Opaque("host_cpu_get_uuid", 2),
      "host_cpu_get_host" := Opaque("host_cpu_get_host", 2),
      "host_cpu_get_features" := Opaque("host_cpu_get_features", 2),
      "host_cpu_get_utilisation" := Opaque("host_cpu_get_utilisation", 2),
      "host_cpu_get_number" := Opaque("host_cpu_get_number", 2),
      "host_cpu_destroy" := Constant(2, ApiError(Unsupported)),
      "host_cpu_get_record" := Opaque("host_cpu_get_record", 2),
      "host_cpu_to_xml" := Constant(2, ApiTodo()),
      "host_cpu_get_all" := Opaque("host_cpu_get_all", 1),
      "host_cpu_create" := Constant(2, ApiError(Unsupported)),
      "vm_get_power_state" := Opaque("vm_get_power_state", 2),
      "vm_get_resident_on" := Opaque("vm_get_resident_on", 2),
      "vm_get_memory_actual" := Opaque("vm_get_memory_actual", 2),
      "vm_get_memory_static_max" := Opaque("vm_get_memory_static_max", 2),
      "vm_get_memory_static_min" := Opaque("vm_get_memory_static_min", 2),
      "vm_get_vcpus_number" := Opaque("vm_get_vcpus_number", 2),
      "vm_get_vcpus_utilisation" := Opaque("vm_get_vcpus_utilisation", 2),
      "vm_get_vcpus_features_required" := Opaque("vm_get_vcpus_features_required", 2),
      "vm_get_vcpus_can_use" := Opaque("vm_get_vcpus_can_use", 2),
      "vm_get_vifs" := Opaque("vm_get_vifs", 2),
      "vm_get_vbds" := Opaque("vm_get_vbds", 2),
      "vm_get_tpm_instance" := Opaque("vm_get_tpm_instance", 2),
      "vm_get_tpm_backend" := Opaque("vm_get_tpm_backend", 2),
      "vm_get_pci_bus" := Opaque("vm_get_pci_bus", 2),
      "vm_get_tools_version" := Opaque("vm_get_tools_version", 2),
      "vm_get_name_label" := Opaque("vm_get_name_label", 2),
      "vm_get_name_description" := Opaque("vm_get_name_description", 2),
      "vm_get_user_version" := Opaque("vm_get_user_version", 2),
      "vm_get_is_a_template" := Opaque("vm_get_is_a_template", 2),
      "vm_get_memory_dynamic_max" := Opaque("vm_get_memory_dynamic_max", 2),
      "vm_get_memory_dynamic_min" := Opaque("vm_get_memory_dynamic_min", 2),
      "vm_get_vcpus_policy" := Opaque("vm_get_vcpus_policy", 2),
      "vm_get_vcpus_params" := Opaque("vm_get_vcpus_params", 2),
      "vm_get_vcpus_features_force_on" := Opaque("vm_get_vcpus_features_force_on", 2),
      "vm_get_vcpus_features_force_off" := Opaque("vm_get_vcpus_features_force_off", 2),
      "vm_get_actions_after_shutdown" := Opaque("vm_get_actions_after_shutdown", 2),
      "vm_get_actions_after_reboot" := Opaque("vm_get_actions_after_reboot", 2),
      "vm_get_actions_after_suspend" := Opaque("vm_get_actions_after_suspend", 2),
      "vm_get_actions_after_crash" := Opaque("vm_get_actions_after_crash", 2),
      "vm_get_bios_boot" := Opaque("vm_get_bios_boot", 2),
      "vm_get_platform_std_vga" := Opaque("vm_get_platform_std_vga", 2),
      "vm_get_platform_serial" := Opaque("vm_get_platform_serial", 2),
      "vm_get_platform_localtime" := Opaque("vm_get_platform_localtime", 2),
      "vm_get_platform_clock_offset" := Opaque("vm_get_platform_clock_offset", 2),
      "vm_get_platform_enable_audio" := Opaque("vm_get_platform_enable_audio", 2),
      "vm_get_builder" := Opaque("vm_get_builder", 2),
      "vm_get_boot_method" := Opaque("vm_get_boot_method", 2),
      "vm_get_kernel_kernel" := Opaque("vm_get_kernel_kernel", 2),
      "vm_get_kernel_initrd" := Opaque("vm_get_kernel_initrd", 2),
      "vm_get_kernel_args" := Opaque("vm_get_kernel_args", 2),
      "vm_get_grub_cmdline" := Opaque("vm_get_grub_cmdline", 2),
      "vm_get_other_config" := Opaque("vm_get_other_config", 2),
      "vm_set_name_label" := Opaque("vm_set_name_label", 2),
      "vm_set_name_description" := Opaque("vm_set_name_description", 2),
      "vm_set_user_version" := Opaque("vm_set_user_version", 2),
      "vm_set_is_a_template" := Opaque("vm_set_is_a_template", 2),
      "vm_set_memory_dynamic_max" := Opaque("vm_set_memory_dynamic_max", 2),
      "vm_set_memory_dynamic_min" := Opaque("vm_set_memory_dynamic_min", 2),
      "vm_set_vcpus_policy" := Opaque("vm_set_vcpus_policy", 2),
      "vm_set_vcpus_params" := Opaque("vm_set_vcpus_params", 2),
      "vm_set_vcpus_features_force_on" := Opaque("vm_set_vcpus_features_force_on", 2),
      "vm_set_vcpus_features_force_off" := Opaque("vm_set_vcpus_features_force_off", 2),
      "vm_set_actions_after_shutdown" := Opaque("vm_set_actions_after_shutdown", 2),
      "vm_set_actions_after_reboot" := Opaque("vm_set_actions_after_reboot", 2),
      "vm_set_actions_after_suspend" := Opaque("vm_set_actions_after_suspend", 2),
      "vm_set_actions_after_crash" := Opaque("vm_set_actions_after_crash", 2),
      "vm_set_bios_boot" := Opaque("vm_set_bios_boot", 2),
      "vm_set_platform_std_vga" := Opaque("vm_set_platform_std_vga", 2),
      "vm_set_platform_serial" := Opaque("vm_set_platform_serial", 2),
      "vm_set_platform_localtime" := Opaque("vm_set_platform_localtime", 2),
      "vm_set_platform_clock_offset" := Opaque("vm_set_platform_clock_offset", 2),
      "vm_set_platform_enable_audio" := Opaque("vm_set_platform_enable_audio", 2),
      "vm_set_builder" := Opaque("vm_set_builder", 2),
      "vm_set_boot_method" := Opaque("vm_set_boot_method", 2),
      "vm_set_kernel_kernel" := Opaque("vm_set_kernel_kernel", 2),
      "vm_set_kernel_initrd" := Opaque("vm_set_kernel_initrd", 2),
      "vm_set_kernel_args" := Opaque("vm_set_kernel_args", 2),
      "vm_set_grub_cmdline" := Opaque("vm_set_grub_cmdline", 2),
      "vm_set_other_config" := Opaque("vm_set_other_config", 2),
      "vm_get_all" := Opaque("vm_get_all", 1),
      "vm_get_by_label" := VmGetByLabel,
      "vm_create" := Opaque("vm_create", 2),
      "vm_to_xml" := Constant(2, ApiTodo()),
      "vm_get_record" := Opaque("vm_get_record", 2),
      "vm_clean_reboot" := Opaque("vm_clean_reboot", 2),
      "vm_clean_shutdown" := Opaque("vm_clean_shutdown", 2),
      "vm_clone" := Constant(2, ApiError(Unsupported)),
      "vm_destroy" := Opaque("vm_destroy", 2),
      "vm_hard_reboot" := Constant(2, ApiError(Unsupported)),
      "vm_hard_shutdown" := Opaque("vm_hard_shutdown", 2),
      "vm_pause" := Opaque("vm_pause", 2),
      "vm_resume" := Opaque("vm_resume", 3),
      "vm_start" := Opaque("vm_start", 2),
      "vm_suspend" := Opaque("vm_suspend", 2),
      "vm_unpause" := Opaque("vm_unpause", 2),
      "vbd_get_record" := Opaque("vbd_get_record", 2),
      "vbd_create" := CreateDevice(Vbd),
      "vbd_get_vm" := Opaque("vbd_get_vm", 2),
      "vbd_get_vdi" := Constant(2, ApiError(Unsupported)),
      "vbd_get_device" := Opaque("vbd_get_device", 2),
      "vbd_get_mode" := Opaque("vbd_get_mode", 2),
      "vbd_get_driver" := Opaque("vbd_get_driver", 2),
      "vif_create" := CreateDevice(Vif)
    ]
  }

  /** The handlers the class body defines (lines 291-1015), by name: the
      bodies above with no guard and no api tag, and
      session_login_with_password, the one handler carrying an api tag of
      its own (line 297). Before __init__ runs, no handler carries a guard. */
  function InitialTable(): (t: map<string, Handler>)
    ensures t.Keys == DefinedBodies().Keys + {"session_login_with_password"}
    ensures forall k :: k in t ==> t[k].guards == []
    ensures forall k :: k in DefinedBodies() && k != "session_login_with_password" ==>
      t[k].body == DefinedBodies()[k] && t[k].api == None
    ensures t["session_login_with_password"] == Handler(LoginWithPassword, [], Some("Session.login_with_password"))
  {
    var defined := map k | k in DefinedBodies() :: Handler(DefinedBodies()[k], [], None);
    defined["session_login_with_password" := Handler(LoginWithPassword, [], Some("Session.login_with_password"))]
  }
}
