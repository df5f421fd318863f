/** Error codes the pages test for and the texts they show. The registration
    texts are written identically in both the page and the modal. */
module Messages {

  const ProgramRoute := "/program"

  /** The balance a new profile is seeded with. */
  const StartingTokens := 100

  const TooManyRequestsCode := "auth/too-many-requests"
  const InvalidLoginCredentialsCode := "auth/invalid-login-credentials"
  const EmailInUseCode := "auth/email-already-in-use"
  const InvalidEmailCode := "auth/invalid-email"
  const WeakPasswordCode := "auth/weak-password"

  const TooManyRequestsMessage := "Слишком много попыток. Пожалуйста, подождите несколько минут."
  const SendFailedMessage := "Ошибка при отправке письма. Пожалуйста, попробуйте позже."
  const WrongCredentialsMessage := "Неверный email или пароль"
  const LoginFailedMessage := "Произошла ошибка при входе"
  const EmailInUseMessage := "Этот email уже используется"
  const InvalidEmailMessage := "Неверный формат email"
  const WeakPasswordMessage := "Пароль должен содержать минимум 6 символов"
  const RegistrationFailedMessage := "Ошибка при регистрации. Пожалуйста, проверьте данные и попробуйте снова"
  const FallbackMessage := "Произошла ошибка. Пожалуйста, попробуйте позже"
  const GoogleSignInFailedMessage := "Ошибка при входе через Google"
}
