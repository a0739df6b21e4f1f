/** Users of the social network, as every service knows them. */
module Users {

  type UserId = string
}
