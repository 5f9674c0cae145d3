/**
 * The host windowing-system family (libobs/obs-platform.h, enum obs_platform_type).
 * The process-wide current value is set by obs_set_platform and read by
 * obs_get_platform; those bodies are not part of this model, so the hotkey
 * registry receives the current value as a parameter.
 */
module Platform {
  datatype PlatformType = PlatformDefault | PlatformWayland
}
