/**
 * What the two registration components share: the form state both keep (every field is
 * the text typed into it) and the two password messages both show.
 */
module Registration {

  datatype Form = Form(email: string, password: string, confirmPassword: string, nombre: string, rol: string)

  /** The form as both components first show it. */
  const InitialForm := Form("", "", "", "", "modelista")

  const MsgMismatch := "Las contraseñas no coinciden"
  const MsgShort := "La contraseña debe tener al menos 6 caracteres"

  /** The minimum password length both components demand. */
  const MinPassword := 6
}
